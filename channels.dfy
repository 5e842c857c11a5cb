/**
 * The two channels built on `RedisQueue`: `ClientQueues` (the submitting
 * side) and `MethodServerQueues` (the worker side), and `make_queue_pairs`.
 * Both channels of one name use the same two families on the same server, with
 * the roles reversed: the client writes the `inputs` family that the server
 * reads, and the server writes the `results` family that the client reads.
 */
module Channels {
  import opened Wrappers
  import opened QueueNames
  import opened Broker
  import opened Messages
  import opened Queue

  /** The prefix of the task family: `inputs`, or `name_inputs`. */
  function InputsPrefix(name: Option<string>): string {
    if name.None? then "inputs" else QueueName(name.value, "inputs")
  }

  /** The prefix of the result family: `results`, or `name_results`. */
  function ResultsPrefix(name: Option<string>): string {
    if name.None? then "results" else QueueName(name.value, "results")
  }

  /** No queue of the task family is a queue of the result family of the same name. */
  lemma FamiliesDisjoint(name: Option<string>, t1: string, t2: string)
    requires DELIMITER !in t1 && DELIMITER !in t2
    ensures QueueName(InputsPrefix(name), t1) != QueueName(ResultsPrefix(name), t2)
  {
    SplitQueueName(InputsPrefix(name), t1);
    SplitQueueName(ResultsPrefix(name), t2);
    if name.Some? {
      SplitQueueName(name.value, "inputs");
      SplitQueueName(name.value, "results");
    } else {
      SplitWithoutDelimiter("inputs", DELIMITER);
      SplitWithoutDelimiter("results", DELIMITER);
    }
    var s1 := Split(QueueName(InputsPrefix(name), t1), DELIMITER);
    var s2 := Split(QueueName(ResultsPrefix(name), t2), DELIMITER);
    assert s1[|s1| - 2] == "inputs";
    assert s2[|s2| - 2] == "results";
  }

  /**
   * Traffic on the result family never touches a queue of the task family: a
   * put or a flush there leaves every `name_inputs_t` as it was.
   */
  lemma ResultsLeaveInputs(name: Option<string>, results: Layout, connected: bool, reachable: bool,
                           m: Store, data: string, topic: string, t: string)
    requires ValidLayout(results) && results.prefix == ResultsPrefix(name)
    requires DELIMITER !in t
    ensures var queue := QueueName(InputsPrefix(name), t);
      && Lookup(PutStep(results, connected, reachable, m, data, topic).1, queue) == Lookup(m, queue)
      && Lookup(FlushStep(results, connected, reachable, m).1, queue) == Lookup(m, queue)
  {
    var queue := QueueName(InputsPrefix(name), t);
    if queue in results.queues {
      var u :| u in results.topics && queue == QueueName(results.prefix, u);
      FamiliesDisjoint(name, t, u);
    }
    if QueueName(results.prefix, topic) in results.queues {
      Registered(results, topic);
      FamiliesDisjoint(name, t, topic);
    }
  }

  /**
   * A clean slate: flushing the result family and then the task family of one
   * name leaves every queue of both families empty.
   */
  lemma CleanSlateEmpties(name: Option<string>, inputs: Layout, results: Layout, m: Store)
    requires ValidLayout(inputs) && ValidLayout(results) && inputs.topics == results.topics
    requires inputs.prefix == InputsPrefix(name) && results.prefix == ResultsPrefix(name)
    ensures var after := Deleted(Deleted(m, results.queues), inputs.queues);
      forall t :: t in inputs.topics ==>
        && Lookup(after, QueueName(InputsPrefix(name), t)) == []
        && Lookup(after, QueueName(ResultsPrefix(name), t)) == []
  {
    var between := Deleted(m, results.queues);
    FlushEmpties(results, m);
    FlushEmpties(inputs, between);
    forall t | t in inputs.topics
      ensures QueueName(ResultsPrefix(name), t) !in FamilyNames(InputsPrefix(name), inputs.topics)
    {
      var queue := QueueName(ResultsPrefix(name), t);
      if queue in FamilyNames(InputsPrefix(name), inputs.topics) {
        var u :| u in inputs.topics && queue == QueueName(InputsPrefix(name), u);
        FamiliesDisjoint(name, u, t);
      }
    }
  }

  /** The three outcomes of `get_task`, and the failure of the underlying get. */
  datatype TaskOutcome =
    | Task(topic: string, task: Envelope)
    | TimedOut
    | Killed
    | Failed(error: Error)

  /**
   * How `get_task` classifies what its get returned: a timeout first, then the
   * kill signal on whichever topic it came, then an envelope.
   */
  function ClassifyTask(reply: Reply, c: Codec, usePickle: bool): TaskOutcome {
    match reply
    case Failure(e) => Failed(e)
    case Success(None) => TimedOut
    case Success(Some((topic, message))) =>
      if message == KILL_SIGNAL then Killed
      else
        match Decode(c, usePickle, message)
        case None => Failed(MalformedMessage)
        case Some(task) => Task(topic, task)
  }

  /** The classification of `get_task`, case by case, in the order it checks them. */
  lemma ClassifyTaskCases(reply: Reply, c: Codec, usePickle: bool)
    ensures ClassifyTask(reply, c, usePickle) == TimedOut <==> reply == Success(None)
    ensures ClassifyTask(reply, c, usePickle) == Killed <==>
      reply.Success? && reply.value.Some? && reply.value.value.1 == KILL_SIGNAL
    ensures ClassifyTask(reply, c, usePickle).Task? <==>
      && reply.Success? && reply.value.Some? && reply.value.value.1 != KILL_SIGNAL
      && Decode(c, usePickle, reply.value.value.1).Some?
    ensures ClassifyTask(reply, c, usePickle).Task? ==>
      && ClassifyTask(reply, c, usePickle).topic == reply.value.value.0
      && Some(ClassifyTask(reply, c, usePickle).task) == Decode(c, usePickle, reply.value.value.1)
  {
  }

  /** With a lawful codec, an encoded envelope is classified as that task, on its topic. */
  lemma ClassifyEncoded(c: Codec, usePickle: bool, topic: string, task: Envelope)
    requires Lawful(c)
    ensures ClassifyTask(Success(Some((topic, Encode(c, usePickle, task)))), c, usePickle) == Task(topic, task)
  {
    DecodeEncode(c, usePickle, task);
  }

  /** What `get_result` makes of its get: a timeout, a parsed result, or a failure. */
  function ResultOf(reply: Reply, c: Codec, usePickle: bool): Result<Option<Envelope>, Error> {
    match reply
    case Failure(e) => Failure(e)
    case Success(None) => Success(None)
    case Success(Some((_, message))) =>
      match Decode(c, usePickle, message)
      case None => Failure(MalformedMessage)
      case Some(result) => Success(Some(result))
  }

  /** With a lawful codec, `get_result` gives back the envelope that was encoded. */
  lemma ResultOfEncoded(c: Codec, usePickle: bool, topic: string, result: Envelope)
    requires Lawful(c)
    ensures ResultOf(Success(Some((topic, Encode(c, usePickle, result)))), c, usePickle) == Success(Some(result))
  {
    DecodeEncode(c, usePickle, result);
  }

  /**
   * On an otherwise empty task family, a client's `send_inputs` on topic `T`
   * is what the server's next `get_task` returns: the same envelope, on `T`,
   * and the key space is as it was before.
   */
  lemma SendInputsThenGetTask(sender: Layout, receiver: Layout, m: Store, c: Codec, usePickle: bool,
                              task: Envelope, topic: string)
    requires ValidLayout(sender) && ValidLayout(receiver) && SameFamily(sender, receiver)
    requires Lawful(c) && Canonical(m) && topic in sender.topics
    requires forall t :: t in receiver.topics ==> Lookup(m, QueueName(receiver.prefix, t)) == []
    ensures var (o, afterPut) := PutStep(sender, true, true, m, Encode(c, usePickle, task), topic);
      var (reply, afterGet) := GetStep(receiver, true, true, afterPut, None);
      && o == Pass
      && ClassifyTask(reply, c, usePickle) == Task(topic, task)
      && afterGet == m
  {
    PutThenGetAny(sender, receiver, m, Encode(c, usePickle, task), topic);
    ClassifyEncoded(c, usePickle, topic, task);
  }

  /**
   * On an otherwise empty task family, `send_kill_signal` followed by
   * `get_task` gives the kill signal, never a task.
   */
  lemma KillSignalThenGetTask(sender: Layout, receiver: Layout, m: Store, c: Codec, usePickle: bool)
    requires ValidLayout(sender) && ValidLayout(receiver) && SameFamily(sender, receiver)
    requires Canonical(m)
    requires forall t :: t in receiver.topics ==> Lookup(m, QueueName(receiver.prefix, t)) == []
    ensures var (o, afterPut) := PutStep(sender, true, true, m, KILL_SIGNAL, DEFAULT_TOPIC);
      var (reply, afterGet) := GetStep(receiver, true, true, afterPut, None);
      && o == Pass
      && ClassifyTask(reply, c, usePickle) == Killed
      && afterGet == m
  {
    PutThenGetAny(sender, receiver, m, KILL_SIGNAL, DEFAULT_TOPIC);
  }

  /** The client side: sends tasks on the task family, reads results from the result family. */
  class ClientQueues {
    const usePickle: bool
    const codec: Codec
    const outbound: RedisQueue
    const inbound: RedisQueue

    ghost predicate Valid()
      reads this, outbound, inbound
    {
      && outbound.Valid() && inbound.Valid()
      && outbound.hostServer == inbound.hostServer
    }

    constructor (usePickle: bool, codec: Codec, outbound: RedisQueue, inbound: RedisQueue)
      ensures this.usePickle == usePickle && this.codec == codec
      ensures this.outbound == outbound && this.inbound == inbound
    {
      this.usePickle := usePickle;
      this.codec := codec;
      this.outbound := outbound;
      this.inbound := inbound;
    }

    /**
     * `ClientQueues(hostname, port, name, use_pickle, topics)`: the outbound
     * queue on the task family and the inbound queue on the result family,
     * both connected at once.
     */
    static method Create(server: Server, name: Option<string>, usePickle: bool, topics: Option<seq<string>>, codec: Codec)
      returns (r: Result<ClientQueues, Error>)
      ensures r.Success? <==> RegisterTopics(topics).Some? && server.reachable
      ensures r.Failure? ==> r.error == if RegisterTopics(topics).None? then InvalidTopicName else ConnectionFailed
      ensures r.Success? ==>
        var q := r.value;
        && fresh(q) && fresh(q.outbound) && fresh(q.inbound) && q.Valid()
        && q.outbound.hostServer == server
        && q.outbound.prefix == InputsPrefix(name) && q.inbound.prefix == ResultsPrefix(name)
        && q.outbound.topics == RegisterTopics(topics).value && q.inbound.topics == RegisterTopics(topics).value
        && q.outbound.IsConnected() && q.inbound.IsConnected()
        && q.usePickle == usePickle && q.codec == codec
    {
      var outbound := RedisQueue.Create(server, InputsPrefix(name), topics);
      if outbound.Failure? {
        return Failure(outbound.error);
      }
      var inbound := RedisQueue.Create(server, ResultsPrefix(name), topics);
      assert inbound.Success?;  // the same topics were accepted just before
      var connected := outbound.value.Connect();
      if connected.Fail? {
        return Failure(connected.error);
      }
      connected := inbound.value.Connect();
      assert connected == Pass;  // the server answered the first ping
      var q := new ClientQueues(usePickle, codec, outbound.value, inbound.value);
      return Success(q);
    }

    /**
     * `send_inputs(*args, method, input_kwargs, topic)`: puts the encoded task
     * envelope on `topic` of the task family; absent keyword arguments are
     * sent as an empty map.
     */
    method SendInputs(args: seq<Value>, methodName: Option<string>, inputKwargs: Option<map<string, Value>>, topic: string)
      returns (o: Outcome<Error>)
      requires Valid() && outbound.hostServer.Valid()
      modifies outbound.hostServer`store
      ensures outbound.hostServer.Valid()
      ensures (o, outbound.hostServer.store) ==
        PutStep(outbound.Shape(), outbound.IsConnected(), outbound.hostServer.reachable, old(outbound.hostServer.store),
                Encode(codec, usePickle, TaskEnvelope(args, methodName, inputKwargs)), topic)
    {
      o := outbound.Put(Encode(codec, usePickle, TaskEnvelope(args, methodName, inputKwargs)), topic);
    }

    /** `get_result(timeout, topic)`: the next result on `topic`, or on any topic. */
    method GetResult(topic: Option<string>) returns (r: Result<Option<Envelope>, Error>)
      requires Valid() && inbound.hostServer.Valid()
      modifies inbound.hostServer`store
      ensures inbound.hostServer.Valid()
      ensures var (reply, after) :=
          GetStep(inbound.Shape(), inbound.IsConnected(), inbound.hostServer.reachable, old(inbound.hostServer.store), topic);
        r == ResultOf(reply, codec, usePickle) && inbound.hostServer.store == after
    {
      var output := inbound.Get(topic);
      if output.Failure? {
        return Failure(output.error);
      }
      if output.value.None? {
        return Success(None);
      }
      var message := output.value.value.1;
      var result := Decode(codec, usePickle, message);
      if result.None? {
        return Failure(MalformedMessage);
      }
      return Success(Some(result.value));
    }

    /** `send_kill_signal()`: puts the literal `null` on the default topic of the task family. */
    method SendKillSignal() returns (o: Outcome<Error>)
      requires Valid() && outbound.hostServer.Valid()
      modifies outbound.hostServer`store
      ensures outbound.hostServer.Valid()
      ensures (o, outbound.hostServer.store) ==
        PutStep(outbound.Shape(), outbound.IsConnected(), outbound.hostServer.reachable, old(outbound.hostServer.store),
                KILL_SIGNAL, DEFAULT_TOPIC)
    {
      o := outbound.Put(KILL_SIGNAL, DEFAULT_TOPIC);
    }
  }

  /** The worker side: reads tasks from the task family, sends results on the result family. */
  class MethodServerQueues {
    const usePickle: bool
    const codec: Codec
    const inbound: RedisQueue
    const outbound: RedisQueue

    ghost predicate Valid()
      reads this, inbound, outbound
    {
      && inbound.Valid() && outbound.Valid()
      && inbound.hostServer == outbound.hostServer
    }

    constructor (usePickle: bool, codec: Codec, inbound: RedisQueue, outbound: RedisQueue)
      ensures this.usePickle == usePickle && this.codec == codec
      ensures this.inbound == inbound && this.outbound == outbound
    {
      this.usePickle := usePickle;
      this.codec := codec;
      this.inbound := inbound;
      this.outbound := outbound;
    }

    /**
     * `MethodServerQueues(hostname, port, name, clean_slate, use_pickle, topics)`:
     * the inbound queue on the task family and the outbound queue on the
     * result family, both connected; with `clean_slate` both families are
     * flushed, result family first.
     */
    static method Create(server: Server, name: Option<string>, cleanSlate: bool, usePickle: bool,
                         topics: Option<seq<string>>, codec: Codec)
      returns (r: Result<MethodServerQueues, Error>)
      requires server.Valid()
      modifies server`store
      ensures server.Valid()
      ensures r.Success? <==> RegisterTopics(topics).Some? && server.reachable
      ensures r.Failure? ==> r.error == if RegisterTopics(topics).None? then InvalidTopicName else ConnectionFailed
      ensures r.Success? ==>
        var q := r.value;
        && fresh(q) && fresh(q.inbound) && fresh(q.outbound) && q.Valid()
        && q.inbound.hostServer == server
        && q.inbound.prefix == InputsPrefix(name) && q.outbound.prefix == ResultsPrefix(name)
        && q.inbound.topics == RegisterTopics(topics).value && q.outbound.topics == RegisterTopics(topics).value
        && q.inbound.IsConnected() && q.outbound.IsConnected()
        && q.usePickle == usePickle && q.codec == codec
      ensures server.store ==
        if r.Success? && cleanSlate
        then Deleted(Deleted(old(server.store), r.value.outbound.allQueues), r.value.inbound.allQueues)
        else old(server.store)
      ensures r.Success? && cleanSlate ==> forall t :: t in r.value.inbound.topics ==>
        && Lookup(server.store, QueueName(InputsPrefix(name), t)) == []
        && Lookup(server.store, QueueName(ResultsPrefix(name), t)) == []
    {
      var inbound := RedisQueue.Create(server, InputsPrefix(name), topics);
      if inbound.Failure? {
        return Failure(inbound.error);
      }
      var outbound := RedisQueue.Create(server, ResultsPrefix(name), topics);
      assert outbound.Success?;  // the same topics were accepted just before
      var connected := outbound.value.Connect();
      if connected.Fail? {
        return Failure(connected.error);
      }
      connected := inbound.value.Connect();
      assert connected == Pass;  // the server answered the first ping
      if cleanSlate {
        ghost var before := server.store;
        var flushed := outbound.value.Flush();
        assert flushed == Pass;
        flushed := inbound.value.Flush();
        assert flushed == Pass;
        CleanSlateEmpties(name, inbound.value.Shape(), outbound.value.Shape(), before);
      }
      var q := new MethodServerQueues(usePickle, codec, inbound.value, outbound.value);
      return Success(q);
    }

    /**
     * `get_task(timeout)`: a get on every topic of the task family, then a
     * timeout, the kill signal, or the parsed task with its topic.
     */
    method GetTask() returns (r: TaskOutcome)
      requires Valid() && inbound.hostServer.Valid()
      modifies inbound.hostServer`store
      ensures inbound.hostServer.Valid()
      ensures var (reply, after) :=
          GetStep(inbound.Shape(), inbound.IsConnected(), inbound.hostServer.reachable, old(inbound.hostServer.store), None);
        r == ClassifyTask(reply, codec, usePickle) && inbound.hostServer.store == after
    {
      var output := inbound.Get(None);
      if output.Failure? {
        return Failed(output.error);
      }
      if output.value.None? {
        return TimedOut;
      } else if output.value.value.1 == KILL_SIGNAL {
        return Killed;
      }
      var (topic, message) := output.value.value;
      var task := Decode(codec, usePickle, message);
      if task.None? {
        return Failed(MalformedMessage);
      }
      return Task(topic, task.value);
    }

    /** `send_result(result, topic)`: puts the encoded result on `topic` of the result family. */
    method SendResult(result: Envelope, topic: string) returns (o: Outcome<Error>)
      requires Valid() && outbound.hostServer.Valid()
      modifies outbound.hostServer`store
      ensures outbound.hostServer.Valid()
      ensures (o, outbound.hostServer.store) ==
        PutStep(outbound.Shape(), outbound.IsConnected(), outbound.hostServer.reachable, old(outbound.hostServer.store),
                Encode(codec, usePickle, result), topic)
    {
      o := outbound.Put(Encode(codec, usePickle, result), topic);
    }
  }

  /**
   * A client and a server channel wired to each other: on one server, the
   * client's outbound family is the server's inbound family and the reverse,
   * every queue connected, and both sides encode alike.
   */
  ghost predicate Paired(client: ClientQueues, worker: MethodServerQueues)
    reads client, client.outbound, client.inbound, worker, worker.inbound, worker.outbound
  {
    && client.Valid() && worker.Valid()
    && client.outbound.hostServer == worker.inbound.hostServer
    && SameFamily(client.outbound.Shape(), worker.inbound.Shape())
    && SameFamily(worker.outbound.Shape(), client.inbound.Shape())
    && client.outbound.topics == client.inbound.topics
    && client.outbound.IsConnected() && client.inbound.IsConnected()
    && worker.inbound.IsConnected() && worker.outbound.IsConnected()
    && client.usePickle == worker.usePickle && client.codec == worker.codec
  }

  /**
   * `make_queue_pairs(hostname, port, name, use_pickle, clean_slate, topics)`:
   * a client and a server channel of the same name, cross-wired: the client's
   * outbound family is the server's inbound family and the reverse.
   */
  method MakeQueuePairs(server: Server, name: string, usePickle: bool, cleanSlate: bool,
                        topics: Option<seq<string>>, codec: Codec)
    returns (r: Result<(ClientQueues, MethodServerQueues), Error>)
    requires server.Valid()
    modifies server`store
    ensures server.Valid()
    ensures r.Success? <==> RegisterTopics(topics).Some? && server.reachable
    ensures r.Failure? ==> r.error == if RegisterTopics(topics).None? then InvalidTopicName else ConnectionFailed
    ensures r.Success? ==>
      var (client, worker) := r.value;
      && fresh(client) && fresh(client.outbound) && fresh(client.inbound)
      && fresh(worker) && fresh(worker.inbound) && fresh(worker.outbound)
      && Paired(client, worker)
      && client.outbound.hostServer == server && worker.inbound.hostServer == server
      && client.outbound.prefix == worker.inbound.prefix == InputsPrefix(Some(name))
      && client.inbound.prefix == worker.outbound.prefix == ResultsPrefix(Some(name))
      && client.outbound.topics == client.inbound.topics == RegisterTopics(topics).value
      && worker.inbound.topics == worker.outbound.topics == RegisterTopics(topics).value
      && client.outbound.IsConnected() && client.inbound.IsConnected()
      && worker.inbound.IsConnected() && worker.outbound.IsConnected()
      && client.usePickle == worker.usePickle == usePickle
      && client.codec == worker.codec == codec
      && (cleanSlate ==> forall t :: t in RegisterTopics(topics).value ==>
            && Lookup(server.store, QueueName(InputsPrefix(Some(name)), t)) == []
            && Lookup(server.store, QueueName(ResultsPrefix(Some(name)), t)) == [])
      && (cleanSlate ==> forall k :: k !in worker.inbound.allQueues && k !in worker.outbound.allQueues ==>
            Lookup(server.store, k) == Lookup(old(server.store), k))
      && (!cleanSlate ==> server.store == old(server.store))
    ensures r.Failure? ==> server.store == old(server.store)
  {
    var client := ClientQueues.Create(server, Some(name), usePickle, topics, codec);
    if client.Failure? {
      return Failure(client.error);
    }
    var worker := MethodServerQueues.Create(server, Some(name), cleanSlate, usePickle, topics, codec);
    assert worker.Success?;  // same topics, same server
    return Success((client.value, worker.value));
  }
}
