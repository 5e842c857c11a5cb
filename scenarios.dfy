/**
 * Whole exchanges between a client and a method server made by
 * `make_queue_pairs` with a clean slate, proved from the channels' contracts
 * alone.
 */
module Scenarios {
  import opened Wrappers
  import opened QueueNames
  import opened Broker
  import opened Messages
  import opened Queue
  import opened Channels

  /**
   * `send_kill_signal()` followed by `get_task()` on a fresh pair: the server
   * sees the kill signal, never a task.
   */
  method KillSignalStopsServer(server: Server, name: string, usePickle: bool, topics: Option<seq<string>>, codec: Codec)
    returns (outcome: Option<TaskOutcome>)
    requires server.Valid()
    modifies server`store
    ensures outcome.Some? <==> RegisterTopics(topics).Some? && server.reachable
    ensures outcome.Some? ==> outcome.value == Killed
  {
    var pair := MakeQueuePairs(server, name, usePickle, true, topics, codec);
    if pair.Failure? {
      return None;
    }
    var (client, worker) := pair.value;
    ghost var clean := server.store;
    var sent := client.SendKillSignal();
    KillSignalThenGetTask(client.outbound.Shape(), worker.inbound.Shape(), clean, codec, usePickle);
    var got := worker.GetTask();
    return Some(got);
  }

  /**
   * On an empty task family, the task a client sends on `topic` is the task
   * the server's next `get_task` returns, on `topic`; the key space is left
   * as it was.
   */
  method DeliverTask(client: ClientQueues, worker: MethodServerQueues,
                     args: seq<Value>, methodName: Option<string>, inputKwargs: Option<map<string, Value>>, topic: string)
    returns (received: TaskOutcome)
    requires Paired(client, worker) && Lawful(client.codec)
    requires client.outbound.hostServer.Valid() && client.outbound.hostServer.reachable
    requires topic in client.outbound.topics
    requires forall t :: t in worker.inbound.topics ==>
      Lookup(worker.inbound.hostServer.store, QueueName(worker.inbound.prefix, t)) == []
    modifies client.outbound.hostServer`store
    ensures client.outbound.hostServer.Valid()
    ensures received == Task(topic, TaskEnvelope(args, methodName, inputKwargs))
    ensures client.outbound.hostServer.store == old(client.outbound.hostServer.store)
  {
    var sent := client.SendInputs(args, methodName, inputKwargs, topic);
    SendInputsThenGetTask(client.outbound.Shape(), worker.inbound.Shape(), old(client.outbound.hostServer.store),
                          client.codec, client.usePickle, TaskEnvelope(args, methodName, inputKwargs), topic);
    received := worker.GetTask();
  }

  /**
   * When the client's result queue for `topic` is empty, the result the
   * server sends on `topic` is what the client's `get_result(topic)` returns.
   */
  method DeliverResult(client: ClientQueues, worker: MethodServerQueues, result: Envelope, topic: string)
    returns (delivered: Result<Option<Envelope>, Error>)
    requires Paired(client, worker) && Lawful(client.codec)
    requires worker.outbound.hostServer.Valid() && worker.outbound.hostServer.reachable
    requires topic in worker.outbound.topics
    requires Lookup(worker.outbound.hostServer.store, QueueName(worker.outbound.prefix, topic)) == []
    modifies worker.outbound.hostServer`store
    ensures worker.outbound.hostServer.Valid()
    ensures delivered == Success(Some(result))
    ensures worker.outbound.hostServer.store == old(worker.outbound.hostServer.store)
  {
    var answered := worker.SendResult(result, topic);
    PutThenGet(worker.outbound.Shape(), client.inbound.Shape(), old(worker.outbound.hostServer.store),
               Encode(worker.codec, worker.usePickle, result), topic);
    ResultOfEncoded(client.codec, client.usePickle, topic, result);
    delivered := client.GetResult(Some(topic));
  }

  /**
   * One exchange on a paired client and server whose families are empty on
   * `topic`: the server receives exactly the task sent, on `topic`, and the
   * client gets back exactly the result sent on `topic`.
   */
  method Exchange(client: ClientQueues, worker: MethodServerQueues,
                  args: seq<Value>, methodName: Option<string>, inputKwargs: Option<map<string, Value>>,
                  topic: string, result: Envelope)
    returns (received: TaskOutcome, delivered: Result<Option<Envelope>, Error>)
    requires Paired(client, worker) && Lawful(client.codec)
    requires client.outbound.hostServer.Valid() && client.outbound.hostServer.reachable
    requires topic in client.outbound.topics
    requires forall t :: t in worker.inbound.topics ==>
      Lookup(worker.inbound.hostServer.store, QueueName(worker.inbound.prefix, t)) == []
    requires Lookup(worker.outbound.hostServer.store, QueueName(worker.outbound.prefix, topic)) == []
    modifies client.outbound.hostServer`store
    ensures received == Task(topic, TaskEnvelope(args, methodName, inputKwargs))
    ensures delivered == Success(Some(result))
  {
    received := DeliverTask(client, worker, args, methodName, inputKwargs, topic);
    delivered := DeliverResult(client, worker, result, topic);
  }

  /**
   * One task/result cycle on a fresh pair: the client sends a task on
   * `topic`, the server receives exactly that task on `topic` and sends back
   * `result` on it, and the client's `get_result` on `topic` returns `result`.
   */
  method TaskCycle(server: Server, name: string, usePickle: bool, topics: Option<seq<string>>, codec: Codec,
                   args: seq<Value>, methodName: Option<string>, inputKwargs: Option<map<string, Value>>,
                   topic: string, result: Envelope)
    returns (received: Option<TaskOutcome>, delivered: Option<Result<Option<Envelope>, Error>>)
    requires server.Valid() && Lawful(codec)
    requires topic == DEFAULT_TOPIC || topic in GivenTopics(topics)
    modifies server`store
    ensures received.Some? <==> RegisterTopics(topics).Some? && server.reachable
    ensures received.Some? ==> received.value == Task(topic, TaskEnvelope(args, methodName, inputKwargs))
    ensures received.Some? ==> delivered == Some(Success(Some(result)))
  {
    received, delivered := None, None;
    var pair := MakeQueuePairs(server, name, usePickle, true, topics, codec);
    if pair.Failure? {
      return;
    }
    var (client, worker) := pair.value;
    var got, back := Exchange(client, worker, args, methodName, inputKwargs, topic, result);
    received, delivered := Some(got), Some(back);
  }
}
