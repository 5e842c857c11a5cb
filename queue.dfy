/**
 * `RedisQueue`: one family of topical queues `prefix_topic` on a Redis server,
 * with a topic-qualified blocking get, a topic-qualified put and a flush. What
 * each operation does to the server's key space is given by a step function
 * (`GetStep`, `PutStep`, `FlushStep`); the methods of the class are proved to
 * behave as their step functions say, and the lemmas state the properties of
 * the steps.
 */
module Queue {
  import opened Wrappers
  import opened QueueNames
  import opened Broker

  /** The ways a queue operation fails. */
  datatype Error =
    | NotConnected                      // the queue was used before `connect()`
    | UnrecognizedTopic(topic: string)  // the topic is not registered
    | InvalidTopicName                  // a topic given at construction holds `_`
    | ConnectionFailed                  // the server could not be reached
    | MalformedMessage                  // a payload that does not parse as an envelope

  /** What `get` returns: nothing on a timeout, else the topic and the payload. */
  type Reply = Result<Option<(string, string)>, Error>

  /** A registered topic set: it holds `default` and no topic holds `_`. */
  ghost predicate ValidTopics(topics: set<string>) {
    && DEFAULT_TOPIC in topics
    && forall t :: t in topics ==> DELIMITER !in t
  }

  /** The topics given to the constructor, if any, as a set. */
  function GivenTopics(topics: Option<seq<string>>): set<string> {
    if topics.None? then {} else set t | t in topics.value
  }

  /**
   * The registered topic set of a new queue: the given topics plus `default`,
   * or nothing when a topic holds `_`.
   */
  function RegisterTopics(topics: Option<seq<string>>): (r: Option<set<string>>)
    ensures r.Some? <==> forall t :: t in GivenTopics(topics) ==> DELIMITER !in t
    ensures r.Some? ==> r.value == GivenTopics(topics) + {DEFAULT_TOPIC}
    ensures r.Some? ==> ValidTopics(r.value)
  {
    var registered := GivenTopics(topics) + {DEFAULT_TOPIC};
    if exists t :: t in registered && DELIMITER in t then None else Some(registered)
  }

  /** The fixed part of a queue: its prefix, its topics and its list of queue names. */
  datatype Layout = Layout(prefix: string, topics: set<string>, queues: seq<string>)

  /** The queue names are exactly the names `prefix_t` of the registered topics `t`. */
  ghost predicate ValidLayout(l: Layout) {
    && ValidTopics(l.topics)
    && (forall t :: t in l.topics ==> QueueName(l.prefix, t) in l.queues)
    && (forall q :: q in l.queues ==> q in FamilyNames(l.prefix, l.topics))
  }

  /** The name check of `get` and `put` accepts exactly the registered topics. */
  lemma Registered(l: Layout, topic: string)
    requires ValidLayout(l)
    ensures QueueName(l.prefix, topic) in l.queues <==> topic in l.topics
  {
    InFamilyNames(l.prefix, topic, l.topics);
  }

  /** Every queue of a layout is `prefix_t` for the registered topic `t` that its name ends in. */
  lemma QueueOfLayout(l: Layout, q: string)
    requires ValidLayout(l) && q in l.queues
    ensures TopicOf(q) in l.topics && q == QueueName(l.prefix, TopicOf(q))
  {
    var t :| t in l.topics && q == QueueName(l.prefix, t);
    TopicOfQueueName(l.prefix, t);
  }

  /** `get(topic)`: the reply and the new key space. */
  function GetStep(l: Layout, connected: bool, reachable: bool, m: Store, topic: Option<string>): (Reply, Store) {
    if !connected then (Failure(NotConnected), m)
    else if topic.Some? && QueueName(l.prefix, topic.value) !in l.queues then
      (Failure(UnrecognizedTopic(topic.value)), m)
    else if !reachable then (Failure(ConnectionFailed), m)
    else
      var keys := if topic.None? then l.queues else [QueueName(l.prefix, topic.value)];
      var popped := PopFirst(m, keys);
      match popped.0
      case None => (Success(None), popped.1)
      case Some((queue, result)) => (Success(Some((TopicOf(queue), result))), popped.1)
  }

  /** `put(data, topic)`: the outcome and the new key space. */
  function PutStep(l: Layout, connected: bool, reachable: bool, m: Store, data: string, topic: string): (Outcome<Error>, Store) {
    if !connected then (Fail(NotConnected), m)
    else if QueueName(l.prefix, topic) !in l.queues then (Fail(UnrecognizedTopic(topic)), m)
    else if !reachable then (Fail(ConnectionFailed), m)
    else (Pass, Pushed(m, QueueName(l.prefix, topic), data))
  }

  /** `flush()`: the outcome and the new key space. */
  function FlushStep(l: Layout, connected: bool, reachable: bool, m: Store): (Outcome<Error>, Store) {
    if !connected then (Fail(NotConnected), m)
    else if !reachable then (Fail(ConnectionFailed), m)
    else (Pass, Deleted(m, l.queues))
  }

  /** Before `connect()`, `get`, `put` and `flush` fail with "not connected" and change nothing. */
  lemma UnconnectedFails(l: Layout, reachable: bool, m: Store, topic: Option<string>, data: string, putTopic: string)
    ensures GetStep(l, false, reachable, m, topic) == (Failure(NotConnected), m)
    ensures PutStep(l, false, reachable, m, data, putTopic) == (Fail(NotConnected), m)
    ensures FlushStep(l, false, reachable, m) == (Fail(NotConnected), m)
  {
  }

  /**
   * `put(data, topic)` on a connected queue appends `data` to the tail of
   * `prefix_topic` and changes no other list; an unregistered topic is
   * rejected and nothing changes.
   */
  lemma PutAppends(l: Layout, reachable: bool, m: Store, data: string, topic: string)
    requires ValidLayout(l)
    ensures var (o, after) := PutStep(l, true, reachable, m, data, topic);
      && (o == Pass <==> topic in l.topics && reachable)
      && (topic !in l.topics ==> o == Fail(UnrecognizedTopic(topic)))
      && (o != Pass ==> after == m)
      && (o == Pass ==> Lookup(after, QueueName(l.prefix, topic)) == Lookup(m, QueueName(l.prefix, topic)) + [data])
      && (o == Pass ==> forall k :: k != QueueName(l.prefix, topic) ==> Lookup(after, k) == Lookup(m, k))
  {
    Registered(l, topic);
  }

  /**
   * `get(topic=T)` on a connected queue: `T` must be registered; when
   * `prefix_T` holds something its head is removed and returned with topic
   * `T`, and no other list changes; otherwise the get times out.
   */
  lemma GetFromTopic(l: Layout, m: Store, topic: string)
    requires ValidLayout(l)
    ensures var (reply, after) := GetStep(l, true, true, m, Some(topic));
      var queue := QueueName(l.prefix, topic);
      && (topic !in l.topics ==> reply == Failure(UnrecognizedTopic(topic)) && after == m)
      && (topic in l.topics && Lookup(m, queue) != [] ==>
            reply == Success(Some((topic, Lookup(m, queue)[0]))) && after == Popped(m, queue))
      && (topic in l.topics && Lookup(m, queue) == [] ==> reply == Success(None) && after == m)
  {
    Registered(l, topic);
    if topic in l.topics {
      TopicOfQueueName(l.prefix, topic);
    }
  }

  /**
   * `get(topic=None)` on a connected queue times out exactly when every
   * registered queue is empty; otherwise it removes and returns, with its
   * topic `t`, the head of a non-empty registered queue `prefix_t` (the first
   * non-empty one in the queue list), and no other list changes.
   */
  lemma GetFromAnyTopic(l: Layout, m: Store)
    requires ValidLayout(l)
    ensures var (reply, after) := GetStep(l, true, true, m, None);
      && reply.Success?
      && (reply.value.None? <==> forall t :: t in l.topics ==> Lookup(m, QueueName(l.prefix, t)) == [])
      && (reply.value.None? ==> after == m)
      && (reply.value.Some? ==>
            var (t, v) := reply.value.value;
            var queue := QueueName(l.prefix, t);
            && t in l.topics
            && Lookup(m, queue) != []
            && v == Lookup(m, queue)[0]
            && after == Popped(m, queue)
            && exists j :: 0 <= j < |l.queues| && l.queues[j] == queue
                 && forall i :: 0 <= i < j ==> Lookup(m, l.queues[i]) == [])
  {
    var popped := PopFirst(m, l.queues);
    if popped.0.Some? {
      QueueOfLayout(l, popped.0.value.0);
    } else {
      forall t | t in l.topics ensures Lookup(m, QueueName(l.prefix, t)) == [] {
        var i :| 0 <= i < |l.queues| && l.queues[i] == QueueName(l.prefix, t);
      }
    }
  }

  /**
   * Two views of one family of queues: the same prefix and topics. Two queue
   * objects of one family (a client's and a server's) may list the queue names
   * in different orders.
   */
  ghost predicate SameFamily(a: Layout, b: Layout) {
    a.prefix == b.prefix && a.topics == b.topics
  }

  /**
   * FIFO round trip: when `prefix_T` is empty, `put(P, T)` followed by
   * `get(topic=T)` on the same family returns `(T, P)` and leaves the key
   * space as it was.
   */
  lemma PutThenGet(writer: Layout, reader: Layout, m: Store, payload: string, topic: string)
    requires ValidLayout(writer) && ValidLayout(reader) && SameFamily(writer, reader)
    requires Canonical(m)
    requires topic in writer.topics && Lookup(m, QueueName(writer.prefix, topic)) == []
    ensures var (o, afterPut) := PutStep(writer, true, true, m, payload, topic);
      && o == Pass
      && GetStep(reader, true, true, afterPut, Some(topic)) == (Success(Some((topic, payload))), m)
  {
    var queue := QueueName(writer.prefix, topic);
    PutAppends(writer, true, m, payload, topic);
    GetFromTopic(reader, Pushed(m, queue, payload), topic);
    PushThenPop(m, queue, payload);
  }

  /**
   * When every queue of the family is empty, `put(P, T)` followed by a get on
   * all topics returns `(T, P)` and leaves the key space as it was.
   */
  lemma PutThenGetAny(writer: Layout, reader: Layout, m: Store, payload: string, topic: string)
    requires ValidLayout(writer) && ValidLayout(reader) && SameFamily(writer, reader)
    requires Canonical(m) && topic in writer.topics
    requires forall t :: t in reader.topics ==> Lookup(m, QueueName(reader.prefix, t)) == []
    ensures var (o, afterPut) := PutStep(writer, true, true, m, payload, topic);
      && o == Pass
      && GetStep(reader, true, true, afterPut, None) == (Success(Some((topic, payload))), m)
  {
    var queue := QueueName(writer.prefix, topic);
    var afterPut := Pushed(m, queue, payload);
    PutAppends(writer, true, m, payload, topic);
    Registered(reader, topic);
    forall i | 0 <= i < |reader.queues| && reader.queues[i] != queue
      ensures Lookup(afterPut, reader.queues[i]) == []
    {
      QueueOfLayout(reader, reader.queues[i]);
    }
    PopFirstOnlyCandidate(afterPut, reader.queues, queue);
    TopicOfQueueName(reader.prefix, topic);
    PushThenPop(m, queue, payload);
  }

  /** The key space after `put(v, topic)` of each `v` in `vs`, in order, on a connected queue. */
  function PutAll(l: Layout, m: Store, vs: seq<string>, topic: string): Store
    decreases |vs|
  {
    if vs == [] then m else PutAll(l, PutStep(l, true, true, m, vs[0], topic).1, vs[1..], topic)
  }

  /** Successive puts on a registered topic are successive RPUSHes onto its queue. */
  lemma {:induction false} PutAllPushes(l: Layout, m: Store, vs: seq<string>, topic: string)
    requires ValidLayout(l) && topic in l.topics
    ensures PutAll(l, m, vs, topic) == PushAll(m, QueueName(l.prefix, topic), vs)
    decreases |vs|
  {
    if vs != [] {
      Registered(l, topic);
      PutAllPushes(l, Pushed(m, QueueName(l.prefix, topic), vs[0]), vs[1..], topic);
    }
  }

  /**
   * FIFO over many puts: after putting `vs` on an empty registered topic `T`,
   * the queue holds exactly `vs` in order, no other list has changed, and a
   * get on `T` returns `(T, vs[0])` and leaves `vs[1..]` behind.
   */
  lemma PutAllThenGet(l: Layout, m: Store, vs: seq<string>, topic: string)
    requires ValidLayout(l) && topic in l.topics
    requires Lookup(m, QueueName(l.prefix, topic)) == [] && vs != []
    ensures var queue := QueueName(l.prefix, topic);
      var after := PutAll(l, m, vs, topic);
      && Lookup(after, queue) == vs
      && (forall k :: k != queue ==> Lookup(after, k) == Lookup(m, k))
      && GetStep(l, true, true, after, Some(topic)) == (Success(Some((topic, vs[0]))), Popped(after, queue))
      && Lookup(Popped(after, queue), queue) == vs[1..]
  {
    var queue := QueueName(l.prefix, topic);
    PutAllPushes(l, m, vs, topic);
    PushAllAppends(m, queue, vs);
    GetFromTopic(l, PutAll(l, m, vs, topic), topic);
  }

  /**
   * `flush()` on a connected queue empties every registered queue and leaves
   * every key outside the family untouched.
   */
  lemma FlushEmpties(l: Layout, m: Store)
    requires ValidLayout(l)
    ensures var (o, after) := FlushStep(l, true, true, m);
      && o == Pass
      && (forall t :: t in l.topics ==> Lookup(after, QueueName(l.prefix, t)) == [])
      && (forall k :: k !in FamilyNames(l.prefix, l.topics) ==> Lookup(after, k) == Lookup(m, k))
  {
    var after := FlushStep(l, true, true, m).1;
    forall k | k !in FamilyNames(l.prefix, l.topics) ensures Lookup(after, k) == Lookup(m, k) {
      assert k !in l.queues;
    }
  }

  /** After `flush()`, a get on any registered topic, or on all of them, times out. */
  lemma FlushThenGetTimesOut(l: Layout, m: Store, topic: Option<string>)
    requires ValidLayout(l)
    requires topic.Some? ==> topic.value in l.topics
    ensures var after := FlushStep(l, true, true, m).1;
      GetStep(l, true, true, after, topic) == (Success(None), after)
  {
    var after := FlushStep(l, true, true, m).1;
    FlushEmpties(l, m);
    if topic.Some? {
      GetFromTopic(l, after, topic.value);
    } else {
      GetFromAnyTopic(l, after);
    }
  }

  /** A family of topical queues on one Redis server. */
  class RedisQueue {
    /** The server at the queue's hostname and port. */
    const hostServer: Server
    const prefix: string
    const topics: set<string>
    /** The names `prefix_t` of the registered topics, in set-iteration order. */
    const allQueues: seq<string>
    /** The Redis client; none until `connect()`. */
    var client: Server?

    function Shape(): Layout {
      Layout(prefix, topics, allQueues)
    }

    ghost predicate Valid()
      reads this
    {
      && ValidLayout(Shape())
      && (client == null || client == hostServer)
    }

    predicate IsConnected()
      reads this
    {
      client != null
    }

    /** Builds the queue list of an already registered topic set. */
    constructor (server: Server, prefix: string, topics: set<string>)
      requires ValidTopics(topics)
      ensures Valid() && !IsConnected()
      ensures hostServer == server && this.prefix == prefix && this.topics == topics
      ensures |allQueues| == |topics|
      ensures forall i, j :: 0 <= i < j < |allQueues| ==> allQueues[i] != allQueues[j]
    {
      var remaining := topics;
      var queues: seq<string> := [];
      while remaining != {}
        invariant remaining <= topics
        invariant forall t :: t in topics && t !in remaining ==> QueueName(prefix, t) in queues
        invariant forall q :: q in queues ==> TopicOf(q) in topics - remaining && q == QueueName(prefix, TopicOf(q))
        invariant forall i, j :: 0 <= i < j < |queues| ==> queues[i] != queues[j]
        invariant |queues| == |topics - remaining|
        decreases remaining
      {
        var t :| t in remaining;
        var queue := QueueName(prefix, t);
        TopicOfQueueName(prefix, t);
        assert queue !in queues;
        assert topics - (remaining - {t}) == (topics - remaining) + {t};
        queues := queues + [queue];
        remaining := remaining - {t};
      }
      assert topics - remaining == topics;
      forall q | q in queues ensures q in FamilyNames(prefix, topics) {
        InFamilyNames(prefix, TopicOf(q), topics);
      }
      hostServer := server;
      this.prefix := prefix;
      this.topics := topics;
      allQueues := queues;
      client := null;
    }

    /**
     * `RedisQueue(hostname, port, prefix, topics)`: registers the given topics
     * plus `default`, and is rejected when a topic holds `_`.
     */
    static method Create(server: Server, prefix: string, topics: Option<seq<string>>) returns (r: Result<RedisQueue, Error>)
      ensures r.Failure? <==> RegisterTopics(topics).None?
      ensures r.Failure? ==> r.error == InvalidTopicName
      ensures r.Success? ==>
        && fresh(r.value) && r.value.Valid() && !r.value.IsConnected()
        && r.value.hostServer == server && r.value.prefix == prefix
        && r.value.topics == RegisterTopics(topics).value
    {
      var registered := RegisterTopics(topics);
      if registered.None? {
        return Failure(InvalidTopicName);
      }
      var queue := new RedisQueue(server, prefix, registered.value);
      return Success(queue);
    }

    /**
     * `connect()`: the first call makes the client, then pings the server and
     * fails when it cannot be reached (the client stays set); a later call
     * keeps the client and changes nothing.
     */
    method Connect() returns (o: Outcome<Error>)
      requires Valid()
      modifies this`client
      ensures Valid() && IsConnected()
      ensures old(client) != null ==> client == old(client) && o == Pass
      ensures old(client) == null ==>
        client == hostServer && o == if hostServer.reachable then Pass else Fail(ConnectionFailed)
    {
      if client == null {
        client := hostServer;
        var alive := client.Ping();
        if !alive {
          return Fail(ConnectionFailed);
        }
      }
      return Pass;
    }

    /** `get(topic=topic)`, answering at once when every watched queue is empty. */
    method Get(topic: Option<string>) returns (r: Reply)
      requires Valid() && hostServer.Valid()
      modifies hostServer`store
      ensures hostServer.Valid()
      ensures (r, hostServer.store) == GetStep(Shape(), IsConnected(), hostServer.reachable, old(hostServer.store), topic)
    {
      if client == null {
        return Failure(NotConnected);
      }
      var queues: seq<string>;
      if topic.None? {
        queues := allQueues;
      } else {
        var queue := QueueName(prefix, topic.value);
        if queue !in allQueues {
          return Failure(UnrecognizedTopic(topic.value));
        }
        queues := [queue];
      }
      var ok, output := client.BLPop(queues);
      if !ok {
        return Failure(ConnectionFailed);
      }
      match output
      case None =>
        r := Success(None);
      case Some((queue, result)) =>
        r := Success(Some((TopicOf(queue), result)));
    }

    /** `put(inputData, topic)`. */
    method Put(inputData: string, topic: string) returns (o: Outcome<Error>)
      requires Valid() && hostServer.Valid()
      modifies hostServer`store
      ensures hostServer.Valid()
      ensures (o, hostServer.store) == PutStep(Shape(), IsConnected(), hostServer.reachable, old(hostServer.store), inputData, topic)
    {
      if client == null {
        return Fail(NotConnected);
      }
      var queue := QueueName(prefix, topic);
      if queue !in allQueues {
        return Fail(UnrecognizedTopic(topic));
      }
      var ok := client.RPush(queue, inputData);
      if !ok {
        return Fail(ConnectionFailed);
      }
      return Pass;
    }

    /** `flush()`: deletes the registered queues one after another. */
    method Flush() returns (o: Outcome<Error>)
      requires Valid() && hostServer.Valid()
      modifies hostServer`store
      ensures hostServer.Valid()
      ensures (o, hostServer.store) == FlushStep(Shape(), IsConnected(), hostServer.reachable, old(hostServer.store))
    {
      if client == null {
        return Fail(NotConnected);
      }
      assert QueueName(prefix, DEFAULT_TOPIC) in allQueues;
      var i := 0;
      while i < |allQueues|
        invariant 0 <= i <= |allQueues|
        invariant hostServer.Valid()
        invariant hostServer.store == Deleted(old(hostServer.store), allQueues[..i])
        invariant i > 0 ==> hostServer.reachable
      {
        var ok := client.Delete(allQueues[i]);
        if !ok {
          return Fail(ConnectionFailed);
        }
        DeletedOneMore(old(hostServer.store), allQueues, i);
        i := i + 1;
      }
      assert allQueues[..i] == allQueues;
      return Pass;
    }
  }

  /** Deleting the first `i` keys and then key `i` deletes the first `i + 1` keys. */
  lemma DeletedOneMore(m: Store, keys: seq<string>, i: nat)
    requires i < |keys|
    ensures Deleted(Deleted(m, keys[..i]), [keys[i]]) == Deleted(m, keys[..i + 1])
  {
    assert keys[..i + 1] == keys[..i] + [keys[i]];
  }
}
