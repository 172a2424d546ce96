/** The Redis store the assistant keeps its per-user state in, reduced to
    the commands it uses. A key holds a value and an optional expiry
    instant; the clock is an integer count of milliseconds. A key whose
    expiry instant has been reached reads as absent, as in Redis. */
module KeyValue {
  import opened Wrappers
  import opened Events

  /** What a key holds. Strings the code writes as plain text (flags, hold
      owners), the images_pending counter, and the three lists: the
      image_analysis lines, the message_queue JSON entries and the chat:
      history (a JSON list stored as one string). */
  datatype Value =
    | Text(s: string)
    | Count(n: int)
    | Lines(lines: seq<string>)
    | Queue(msgs: seq<QueuedMessage>)
    | History(entries: seq<ChatEntry>)

  datatype Entry = Entry(value: Value, expiresAt: Option<int>)

  type Data = map<string, Entry>

  const MillisPerSecond: int := 1000

  /** The key exists and has not expired at instant now. */
  predicate Live(data: Data, key: string, now: int)
  {
    key in data && (data[key].expiresAt.None? || now < data[key].expiresAt.value)
  }

  /** GET (and EXISTS when only tested for presence). */
  function Get(data: Data, key: string, now: int): (r: Option<Value>)
    ensures r.Some? <==> Live(data, key, now)
    ensures r.Some? ==> r.value == data[key].value
  {
    if Live(data, key, now) then Some(data[key].value) else None
  }

  /** SETEX key ttl value (also SET key value EX ttl). */
  function SetEx(data: Data, key: string, v: Value, ttl: int, now: int): (r: Data)
    requires ttl > 0
    ensures Live(r, key, now) && Get(r, key, now) == Some(v)
    ensures forall k :: k != key ==> (k in r <==> k in data)
    ensures forall k :: k != key && k in data ==> r[k] == data[k]
  {
    data[key := Entry(v, Some(now + ttl * MillisPerSecond))]
  }

  /** SET key value NX EX ttl: writes only when the key is not live, and
      tells whether it wrote. */
  function SetNx(data: Data, key: string, v: Value, ttl: int, now: int): (r: (Data, bool))
    requires ttl > 0
    ensures r.1 <==> !Live(data, key, now)
    ensures r.1 ==> r.0 == SetEx(data, key, v, ttl, now)
    ensures !r.1 ==> r.0 == data
  {
    if Live(data, key, now) then (data, false) else (SetEx(data, key, v, ttl, now), true)
  }

  /** DEL key. */
  function Del(data: Data, key: string): (r: Data)
    ensures key !in r
    ensures forall k :: k != key ==> (k in r <==> k in data)
    ensures forall k :: k != key && k in data ==> r[k] == data[k]
  {
    data - {key}
  }

  /** EXPIRE key ttl: re-arms the expiry of a live key, does nothing to an
      absent one. */
  function Expire(data: Data, key: string, ttl: int, now: int): (r: Data)
    requires ttl > 0
    ensures Get(r, key, now) == Get(data, key, now)
    ensures Live(data, key, now) ==> r[key].expiresAt == Some(now + ttl * MillisPerSecond)
    ensures !Live(data, key, now) ==> r == data
    ensures forall k :: k != key ==> (k in r <==> k in data)
    ensures forall k :: k != key && k in data ==> r[k] == data[k]
  {
    if Live(data, key, now) then data[key := Entry(data[key].value, Some(now + ttl * MillisPerSecond))]
    else data
  }

  /** The integer a counter key reads as (a missing key reads as 0). */
  function CountOf(v: Option<Value>): int
  {
    if v.Some? && v.value.Count? then v.value.n else 0
  }

  function QueueOf(v: Option<Value>): seq<QueuedMessage>
  {
    if v.Some? && v.value.Queue? then v.value.msgs else []
  }

  function LinesOf(v: Option<Value>): seq<string>
  {
    if v.Some? && v.value.Lines? then v.value.lines else []
  }

  function HistoryOf(v: Option<Value>): seq<ChatEntry>
  {
    if v.Some? && v.value.History? then v.value.entries else []
  }

  /** The expiry a list or counter keeps when it is modified in place: that
      of a live key, none for a key created by the command. */
  function KeptExpiry(data: Data, key: string, now: int): Option<int>
  {
    if Live(data, key, now) then data[key].expiresAt else None
  }

  /** DECR key: a live counter goes down by one and keeps its expiry; a
      missing key becomes -1 without expiry. */
  function Decr(data: Data, key: string, now: int): (r: Data)
    ensures CountOf(Get(r, key, now)) == CountOf(Get(data, key, now)) - 1
    ensures forall k :: k != key ==> (k in r <==> k in data)
    ensures forall k :: k != key && k in data ==> r[k] == data[k]
  {
    data[key := Entry(Count(CountOf(Get(data, key, now)) - 1), KeptExpiry(data, key, now))]
  }

  /** LPUSH key m on the message queue: the new entry becomes the head. */
  function LPush(data: Data, key: string, m: QueuedMessage, now: int): (r: Data)
    ensures QueueOf(Get(r, key, now)) == [m] + QueueOf(Get(data, key, now))
    ensures forall k :: k != key ==> (k in r <==> k in data)
    ensures forall k :: k != key && k in data ==> r[k] == data[k]
  {
    data[key := Entry(Queue([m] + QueueOf(Get(data, key, now))), KeptExpiry(data, key, now))]
  }

  /** RPUSH key line on the image_analysis list: the new line becomes the
      tail. */
  function RPush(data: Data, key: string, line: string, now: int): (r: Data)
    ensures LinesOf(Get(r, key, now)) == LinesOf(Get(data, key, now)) + [line]
    ensures forall k :: k != key ==> (k in r <==> k in data)
    ensures forall k :: k != key && k in data ==> r[k] == data[k]
  {
    data[key := Entry(Lines(LinesOf(Get(data, key, now)) + [line]), KeptExpiry(data, key, now))]
  }

  /** Read-after-write for SETEX: the key reads as the new value until its
      time to live runs out, and every other key reads as before. */
  lemma GetAfterSetEx(data: Data, key: string, v: Value, ttl: int, now: int, k: string, t: int)
    requires ttl > 0
    ensures Get(SetEx(data, key, v, ttl, now), k, t) ==
      if k != key then Get(data, k, t)
      else if t < now + ttl * MillisPerSecond then Some(v)
      else None
  {
  }

  /** A deleted key reads as absent and the others are untouched. */
  lemma GetAfterDel(data: Data, key: string, k: string, t: int)
    ensures Get(Del(data, key), k, t) == if k == key then None else Get(data, k, t)
  {
  }

  /** Once a key with an expiry is written, it stays live only while the
      clock is before that expiry: time can only take liveness away. */
  lemma LiveMonotone(data: Data, key: string, t1: int, t2: int)
    requires t1 <= t2 && Live(data, key, t2)
    ensures Live(data, key, t1)
  {
  }
}

/** The store as the running program sees it: one shared object whose
    commands each take one atomic step against its map, at the instant its
    clock shows. */
module RedisStore {
  import opened Wrappers
  import opened Events
  import KV = KeyValue

  class Store {
    var data: KV.Data
    var now: int

    constructor(initial: KV.Data, clock: int)
      ensures data == initial && now == clock
    {
      data := initial;
      now := clock;
    }

    /** Time passes; no key is touched (expired keys simply read as absent). */
    method Advance(ms: nat)
      modifies this
      ensures now == old(now) + ms && data == old(data)
    {
      now := now + ms;
    }

    method Get(key: string) returns (r: Option<KV.Value>)
      ensures r == KV.Get(data, key, now)
    {
      r := KV.Get(data, key, now);
    }

    method SetEx(key: string, v: KV.Value, ttl: int)
      requires ttl > 0
      modifies this
      ensures data == KV.SetEx(old(data), key, v, ttl, old(now)) && now == old(now)
    {
      data := KV.SetEx(data, key, v, ttl, now);
    }

    method SetNx(key: string, v: KV.Value, ttl: int) returns (ok: bool)
      requires ttl > 0
      modifies this
      ensures (data, ok) == KV.SetNx(old(data), key, v, ttl, old(now)) && now == old(now)
    {
      var r := KV.SetNx(data, key, v, ttl, now);
      data, ok := r.0, r.1;
    }

    method Del(key: string)
      modifies this
      ensures data == KV.Del(old(data), key) && now == old(now)
    {
      data := KV.Del(data, key);
    }

    method Expire(key: string, ttl: int)
      requires ttl > 0
      modifies this
      ensures data == KV.Expire(old(data), key, ttl, old(now)) && now == old(now)
    {
      data := KV.Expire(data, key, ttl, now);
    }

    method Decr(key: string)
      modifies this
      ensures data == KV.Decr(old(data), key, old(now)) && now == old(now)
    {
      data := KV.Decr(data, key, now);
    }

    method LPush(key: string, m: QueuedMessage)
      modifies this
      ensures data == KV.LPush(old(data), key, m, old(now)) && now == old(now)
    {
      data := KV.LPush(data, key, m, now);
    }

    method RPush(key: string, line: string)
      modifies this
      ensures data == KV.RPush(old(data), key, line, old(now)) && now == old(now)
    {
      data := KV.RPush(data, key, line, now);
    }
  }
}
