// The Redis-backed cache: list commands as pure functions on the server's
// key space, and the server, client and connection handle as classes whose
// methods follow the application's error handling.

module Cache {
  import opened Wrappers
  import opened Contexts

  /** A Redis value: a plain string or a list (head first). */
  datatype Entry = Text(text: string) | List(items: seq<string>)

  type Data = map<string, Entry>

  /**
   * The errors a cache call can report: the application's own
   * "redis client not initialized", a transport failure (server down,
   * client closed, context cancelled), a WRONGTYPE reply, the redis.Nil
   * reply of a missing key, and a JSON encoding failure.
   */
  datatype CacheError = NotInitialized | Unavailable | WrongType | Nil | EncodeFailed(message: string)

  /** Message of the error returned when the client is missing. */
  const NotInitializedMessage := "redis client not initialized"

  /** go-redis's KeepTTL duration: SET keeps the key's current expiry. */
  const KeepTTL := -1

  function Reverse(xs: seq<string>): (r: seq<string>)
    ensures |r| == |xs|
    ensures forall i :: 0 <= i < |xs| ==> r[i] == xs[|xs| - 1 - i]
  {
    if xs == [] then [] else Reverse(xs[1..]) + [xs[0]]
  }

  /**
   * The list at k in the order RPOP hands its elements out: oldest push
   * first. A missing key or a string is the empty queue.
   */
  function Queue(d: Data, k: string): seq<string> {
    if k in d && d[k].List? then Reverse(d[k].items) else []
  }

  /** Redis never stores an empty list: popping the last element deletes the key. */
  ghost predicate ValidData(d: Data) {
    forall k | k in d && d[k].List? :: d[k].items != []
  }

  /** LPUSH k v: insert at the head, creating the list when k is missing. */
  function LPush(d: Data, k: string, v: string): (r: Result<Data, CacheError>)
    ensures r.Err? <==> k in d && d[k].Text?
    ensures r.Err? ==> r.error == WrongType
    ensures r.Ok? ==> k in r.value && Queue(r.value, k) == Queue(d, k) + [v]
    ensures r.Ok? ==> forall k' :: k' != k ==> (k' in r.value <==> k' in d)
    ensures r.Ok? ==> forall k' :: k' != k && k' in d ==> r.value[k'] == d[k']
    ensures r.Ok? && ValidData(d) ==> ValidData(r.value)
  {
    if k in d && d[k].Text? then Err(WrongType)
    else
      var items := if k in d then d[k].items else [];
      assert ([v] + items)[1..] == items;
      Ok(d[k := List([v] + items)])
  }

  /**
   * RPOP k: remove and return the tail, deleting the key once the list is
   * empty; redis.Nil for a missing key, WRONGTYPE for a string.
   */
  function RPop(d: Data, k: string): (r: (Data, Result<string, CacheError>))
    ensures k !in d ==> r == (d, Err(Nil))
    ensures k in d && d[k].Text? ==> r == (d, Err(WrongType))
    ensures k in d && ValidData(d) && d[k].List? ==>
              && r.1 == Ok(Queue(d, k)[0])
              && Queue(r.0, k) == Queue(d, k)[1..]
              && (k in r.0 <==> |Queue(d, k)| > 1)
    ensures forall k' :: k' != k ==> (k' in r.0 <==> k' in d)
    ensures forall k' :: k' != k && k' in d ==> r.0[k'] == d[k']
    ensures ValidData(d) ==> ValidData(r.0)
  {
    if k !in d then (d, Err(Nil))
    else match d[k]
      case Text(_) => (d, Err(WrongType))
      case List(items) =>
        if items == [] then (d, Err(Nil))
        else
          var rest := items[..|items| - 1];
          assert Reverse(rest) == Reverse(items)[1..];
          (if rest == [] then d - {k} else d[k := List(rest)], Ok(items[|items| - 1]))
  }

  /** LLEN k: 0 for a missing key, WRONGTYPE for a string. */
  function LLen(d: Data, k: string): (r: Result<int, CacheError>)
    ensures k !in d ==> r == Ok(0)
    ensures k in d && d[k].Text? ==> r == Err(WrongType)
    ensures k in d && d[k].List? ==> r == Ok(|Queue(d, k)|)
  {
    if k !in d then Ok(0)
    else match d[k]
      case Text(_) => Err(WrongType)
      case List(items) => Ok(|items|)
  }

  /** GET k: the string, redis.Nil for a missing key, WRONGTYPE for a list. */
  function GetText(d: Data, k: string): (r: Result<string, CacheError>)
    ensures r.Ok? <==> k in d && d[k].Text?
    ensures r.Ok? ==> r.value == d[k].text
    ensures r.Err? ==> r.error == (if k in d then WrongType else Nil)
  {
    if k !in d then Err(Nil)
    else match d[k]
      case Text(s) => Ok(s)
      case List(_) => Err(WrongType)
  }

  /** Pushing a then b onto a fresh key pops a, then b, after which the key is gone. */
  lemma FifoLaw(d: Data, k: string, a: string, b: string)
    requires k !in d
    ensures LPush(d, k, a).Ok?
    ensures LPush(LPush(d, k, a).value, k, b).Ok?
    ensures var d2 := LPush(LPush(d, k, a).value, k, b).value;
            && RPop(d2, k).1 == Ok(a)
            && RPop(RPop(d2, k).0, k).1 == Ok(b)
            && k !in RPop(RPop(d2, k).0, k).0
  {
    var d1 := LPush(d, k, a).value;
    var d2 := LPush(d1, k, b).value;
    assert Queue(d1, k) == [a];
    assert Queue(d2, k) == [a, b];
    var d3 := RPop(d2, k).0;
    assert Queue(d3, k) == [b];
  }

  /**
   * Pushes and pops on one key behave as a queue: whatever was queued
   * before, a pop after a push of v returns the oldest element, which is v
   * only when the queue was empty.
   */
  lemma {:induction false} PushPopQueue(d: Data, k: string, v: string)
    requires ValidData(d)
    requires !(k in d && d[k].Text?)
    ensures var d1 := LPush(d, k, v).value;
            RPop(d1, k).1 == Ok(if Queue(d, k) == [] then v else Queue(d, k)[0])
  {
    var d1 := LPush(d, k, v).value;
    assert Queue(d1, k) == Queue(d, k) + [v];
    assert Queue(d1, k)[0] == (if Queue(d, k) == [] then v else Queue(d, k)[0]);
  }

  /** A Redis server: its key space, the expiry it was last given per key, and whether it answers. */
  class Server {
    var data: Data
    var ttl: map<string, int>
    var up: bool

    ghost predicate Valid()
      reads this
    {
      ValidData(data) && ttl.Keys <= data.Keys
    }

    constructor ()
      ensures data == map[] && ttl == map[] && up
      ensures Valid()
    {
      data := map[];
      ttl := map[];
      up := true;
    }
  }

  /** A go-redis client connected to one server. */
  class Client {
    const server: Server
    const dsn: string
    var closed: bool

    constructor (dsn: string, server: Server)
      ensures this.server == server && this.dsn == dsn && !closed
    {
      this.server := server;
      this.dsn := dsn;
      closed := false;
    }
  }

  /**
   * The application's Redis handle. `cancel` is the context its cancel
   * function cancels (null when there is none). Every field may be null,
   * as for a zero Redis value.
   */
  class Redis {
    var client: Client?
    var context: Context?
    var cancel: Context?

    /** Whether a command reaches the server: a client that is open, a live context and a server that answers. */
    predicate Live()
      reads this, client, context, if client != null then {client.server} else {}
    {
      client != null && context != null && !client.closed && !context.cancelled && client.server.up
    }

    /**
     * NewRedis after its successful attempt: a fresh client for the DSN,
     * a fresh background context and its cancel function. The attempt that
     * returns is the one whose ping the server answered, so the handle is
     * live.
     */
    constructor Connect(dsn: string, server: Server)
      requires server.up
      ensures Live()
      ensures client != null && fresh(client) && client.server == server && client.dsn == dsn && !client.closed
      ensures context != null && fresh(context) && !context.cancelled
      ensures cancel == context
    {
      client := new Client(dsn, server);
      var ctx := new Context();
      context := ctx;
      cancel := ctx;
    }

    /** Cancels the context if there is a cancel function and closes the client if there is one. */
    method Stop()
      modifies if cancel != null then {cancel} else {}, if client != null then {client} else {}
      ensures cancel != null ==> cancel.cancelled
      ensures client != null ==> client.closed
      ensures cancel != null && cancel != context && context != null ==> context.cancelled == old(context.cancelled)
      ensures client != null ==> !Live()
    {
      if cancel != null {
        cancel.cancelled := true;
      }
      if client != null {
        client.closed := true;
      }
    }

    /** GET: the stored string, or the error of the reply. */
    method Get(key: string) returns (r: Result<string, CacheError>)
      requires client != null && context != null
      ensures !Live() ==> r == Err(Unavailable)
      ensures Live() ==> r == GetText(client.server.data, key)
    {
      if !Live() {
        return Err(Unavailable);
      }
      r := GetText(client.server.data, key);
    }

    /**
     * SET key value with go-redis's expiration rule: a positive duration
     * sets the expiry, KeepTTL keeps it, anything else clears it.
     */
    method Set(key: string, value: string, ttl: int) returns (err: Option<CacheError>)
      requires client != null && context != null && client.server.Valid()
      modifies client.server
      ensures client.server.up == old(client.server.up) && client.server.Valid()
      ensures !old(Live()) ==> err == Some(Unavailable) && unchanged(client.server)
      ensures old(Live()) ==> err == None
      ensures old(Live()) ==> client.server.data == old(client.server.data)[key := Text(value)]
      ensures old(Live()) ==>
                client.server.ttl == (if ttl > 0 then old(client.server.ttl)[key := ttl]
                                      else if ttl == KeepTTL then old(client.server.ttl)
                                      else old(client.server.ttl) - {key})
    {
      if !Live() {
        return Some(Unavailable);
      }
      var s := client.server;
      s.data := s.data[key := Text(value)];
      if ttl > 0 {
        s.ttl := s.ttl[key := ttl];
      } else if ttl != KeepTTL {
        s.ttl := s.ttl - {key};
      }
      err := None;
    }

    /** EXISTS key == 1; a failed command reads as false. */
    method Exists(key: string) returns (b: bool)
      requires client != null && context != null
      ensures b <==> Live() && key in client.server.data
    {
      b := Live() && key in client.server.data;
    }

    /**
     * EXPIRE key ttl: no effect on a missing key, deletes the key for a
     * non-positive duration, sets the expiry otherwise.
     */
    method Expire(key: string, ttl: int) returns (err: Option<CacheError>)
      requires client != null && context != null && client.server.Valid()
      modifies client.server
      ensures client.server.up == old(client.server.up) && client.server.Valid()
      ensures !old(Live()) ==> err == Some(Unavailable) && unchanged(client.server)
      ensures old(Live()) ==> err == None
      ensures old(Live()) && key !in old(client.server.data) ==> unchanged(client.server)
      ensures old(Live()) && key in old(client.server.data) && ttl <= 0 ==>
                client.server.data == old(client.server.data) - {key}
                && client.server.ttl == old(client.server.ttl) - {key}
      ensures old(Live()) && key in old(client.server.data) && ttl > 0 ==>
                client.server.data == old(client.server.data)
                && client.server.ttl == old(client.server.ttl)[key := ttl]
    {
      if !Live() {
        return Some(Unavailable);
      }
      var s := client.server;
      if key in s.data {
        if ttl <= 0 {
          s.data := s.data - {key};
          s.ttl := s.ttl - {key};
        } else {
          s.ttl := s.ttl[key := ttl];
        }
      }
      err := None;
    }

    /**
     * Encodes the value, then LPUSHes the encoding. An encoding failure is
     * reported before the client is looked at.
     */
    method Push<V>(key: string, value: V, encode: V -> Result<string, string>) returns (err: Option<CacheError>)
      requires client != null ==> context != null && client.server.Valid()
      modifies if client != null then {client.server} else {}
      ensures client != null ==> client.server.up == old(client.server.up) && client.server.Valid()
      ensures client != null ==> client.server.ttl == old(client.server.ttl)
      ensures encode(value).Err? ==> err == Some(EncodeFailed(encode(value).error))
      ensures encode(value).Ok? && client == null ==> err == Some(NotInitialized)
      ensures encode(value).Ok? && client != null && !old(Live()) ==> err == Some(Unavailable)
      ensures client != null && (encode(value).Err? || !old(Live())) ==> unchanged(client.server)
      ensures encode(value).Ok? && client != null && old(Live()) ==>
                match LPush(old(client.server.data), key, encode(value).value)
                case Ok(d) => err == None && client.server.data == d
                case Err(e) => err == Some(e) && client.server.data == old(client.server.data)
    {
      var data := encode(value);
      if data.Err? {
        return Some(EncodeFailed(data.error));
      }
      if client == null {
        return Some(NotInitialized);
      }
      if !Live() {
        return Some(Unavailable);
      }
      var s := client.server;
      match LPush(s.data, key, data.value)
      case Ok(d) =>
        s.data := d;
        err := None;
      case Err(e) =>
        err := Some(e);
    }

    /**
     * Checks EXISTS first: a missing key, or a server that cannot be
     * reached, gives ("", no error). Otherwise RPOPs; redis.Nil also gives
     * ("", no error) and any other failure is returned with "".
     */
    method Pop(key: string) returns (value: string, err: Option<CacheError>)
      requires client != null ==> context != null && client.server.Valid()
      modifies if client != null then {client.server} else {}
      ensures client != null ==> client.server.up == old(client.server.up) && client.server.Valid()
      ensures client != null ==>
                client.server.ttl == old(client.server.ttl) - (old(client.server.data).Keys - client.server.data.Keys)
      ensures client == null ==> value == "" && err == Some(NotInitialized)
      ensures client != null && !(old(Live()) && key in old(client.server.data)) ==>
                value == "" && err == None && unchanged(client.server)
      ensures client != null && old(Live()) && key in old(client.server.data) ==>
                var (d, res) := RPop(old(client.server.data), key);
                && client.server.data == d
                && (res.Ok? ==> value == res.value && err == None)
                && (res.Err? && res.error == Nil ==> value == "" && err == None)
                && (res.Err? && res.error != Nil ==> value == "" && err == Some(res.error))
    {
      if client == null {
        return "", Some(NotInitialized);
      }
      var present := Exists(key);
      if !present {
        return "", None;
      }
      var s := client.server;
      var (d, res) := RPop(s.data, key);
      s.data := d;
      if key !in d {
        s.ttl := s.ttl - {key};
      }
      match res
      case Ok(v) =>
        value, err := v, None;
      case Err(e) =>
        value := "";
        err := if e == Nil then None else Some(e);
    }

    /**
     * -1 with an error when there is no client; -1 without one for a
     * missing key or an unreachable server; otherwise LLEN, with -1 on an
     * error reply.
     */
    method Len(key: string) returns (n: int, err: Option<CacheError>)
      requires client != null ==> context != null
      ensures client == null ==> n == -1 && err == Some(NotInitialized)
      ensures client != null && !(Live() && key in client.server.data) ==> n == -1 && err == None
      ensures client != null && Live() && key in client.server.data ==>
                match LLen(client.server.data, key)
                case Ok(len) => n == len && err == None
                case Err(e) => n == -1 && err == Some(e)
    {
      if client == null {
        return -1, Some(NotInitialized);
      }
      var present := Exists(key);
      if !present {
        return -1, None;
      }
      match LLen(client.server.data, key)
      case Ok(len) =>
        n, err := len, None;
      case Err(e) =>
        n, err := -1, Some(e);
    }
  }

  /**
   * The queue behaviour through the Redis handle: two pushes onto a fresh
   * key pop in push order, after which Len reports the -1 of a missing
   * key.
   */
  method FifoScenario(r: Redis, k: string, a: string, b: string) returns (first: string, second: string, n: int)
    requires r.client != null && r.context != null && r.Live()
    requires r.client.server.Valid() && k !in r.client.server.data
    modifies r.client.server
    ensures first == a && second == b && n == -1
    ensures r.client.server.data == old(r.client.server.data)
  {
    var raw := (x: string) => Ok(x);
    ghost var d0 := r.client.server.data;
    FifoLaw(d0, k, a, b);
    ghost var d1 := LPush(d0, k, a).value;
    ghost var d2 := LPush(d1, k, b).value;
    var e1 := r.Push(k, a, raw);
    assert r.Live() && r.client.server.data == d1;
    var e2 := r.Push(k, b, raw);
    assert r.Live() && r.client.server.data == d2;
    var e3, e4, e5;
    first, e3 := r.Pop(k);
    assert r.Live() && r.client.server.data == RPop(d2, k).0;
    second, e4 := r.Pop(k);
    assert r.Live() && r.client.server.data == RPop(RPop(d2, k).0, k).0;
    n, e5 := r.Len(k);
  }
}
