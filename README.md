# Colmena Redis queues, modelled in Dafny

This project models `colmena/redis/queue.py`: the message queues that connect
a Colmena client (the "thinker" that submits tasks) to a method server (the
worker that runs them) through a Redis server.

It covers these parts:

- **Broker** (`broker.dfy`) models the Redis server as a key space that maps a
  key to a list of strings. A missing key reads as an empty list, and Redis
  never stores an empty list. The module covers the four commands the queues
  use:
  - PING;
  - RPUSH;
  - BLPOP on several keys, which takes from the first non-empty key in the
    order given;
  - DEL.

  Each command is a pure function on the key space: `Pushed`, `PopFirst` and
  `Deleted`. A `Server` class holds the key space and says whether the server
  can be reached.
- **QueueNames** (`names.dfy`) covers queue names. A queue is named
  `prefix_topic`, and a reply's topic is recovered as the last `_`-separated
  segment of the queue name (`queue.split("_")[-1]`). `Split` models Python's
  `str.split` on a single character.
- **Queue** (`queue.dfy`) models `RedisQueue`, one family of topical queues
  sharing a prefix. It registers its topics (the given ones plus `default`,
  none of which may contain `_`). It connects lazily (`Connect`, and
  `IsConnected` for `is_connected`). It offers a topic-qualified `Get`, a
  topic-qualified `Put` and a `Flush`.
  - The `_error_if_unconnected` decorator is the first branch of each step
    function.
  - Each method is proved equal to a pure step function (`GetStep`, `PutStep`,
    `FlushStep`) of the old key space.
  - The lemmas state what the steps promise: FIFO order, the round trip from
    put to get, flush-then-timeout, and frame properties.
- **Messages** (`messages.dfy`) covers the task/result envelope and how it is
  encoded on the wire.
- **Channels** (`channels.dfy`) models `ClientQueues`, `MethodServerQueues`
  and `make_queue_pairs`. The client writes to the `inputs` family and reads
  from the `results` family; the server does the reverse. The `null` payload
  is the kill signal.
- **Scenarios** (`scenarios.dfy`) proves whole exchanges on a pair built by
  `MakeQueuePairs`, using only the channels' contracts:
  - a task/result cycle;
  - the kill signal stopping a server.

Failures that the Python code raises as exceptions are modelled as values:
`Result`, `Outcome` and `TaskOutcome`. The mapping is:

| Python exception | Dafny value |
|---|---|
| `ConnectionError('Not connected')` from the decorator | `NotConnected` |
| the `assert` on an unrecognised topic | `UnrecognizedTopic` |
| the `assert` on a topic containing `_` | `InvalidTopicName` |
| a Redis `ConnectionError` | `ConnectionFailed` |
| a payload that does not parse | `MalformedMessage` |
| `TimeoutException` | `TimedOut` |
| `KillSignalException` | `Killed` |

Two behaviours of the code are easy to miss, and the model keeps both:

- `ClientQueues.get_result` returns the result alone. The topic is unpacked
  from the reply and then dropped (`colmena/redis/queue.py:230-241`).
- `connect()` stores its Redis client before it pings. After a failed ping
  the client is still set, so the queue reports `is_connected`
  (`colmena/redis/queue.py:83-86`).

The model keeps these default arguments of the source as explicit
parameters:

- `topic='default'` of `put`, `send_inputs` and `send_result`;
- `topic=None` of `get` and `get_result`, which is `None` of an `Option`;
- `prefix='pipeline'` of `RedisQueue`;
- `name=None` of `ClientQueues` and `MethodServerQueues`, which is
  `InputsPrefix(None)` and `ResultsPrefix(None)`;
- `name='method'` of `make_queue_pairs`;
- `use_pickle=False` of `make_queue_pairs`, `ClientQueues` and
  `MethodServerQueues`;
- `clean_slate=True` of `MethodServerQueues` and `make_queue_pairs`;
- `method=None` and `input_kwargs=None` of `send_inputs`;
- `topics=None` everywhere.

A caller that relies on one of these defaults passes its value instead, for
example `DEFAULT_TOPIC` for the topic.

Two defaults are not modelled, because the parameters they belong to are not
modelled:

- `port=6379`, which belongs to the network address;
- `timeout=None` of `get`, `get_result` and `get_task`, which belongs to the
  timeout.

Both are listed under "Left out".

## Model

| member | source | states |
|---|---|---|
| QueueNames.Split | colmena/redis/queue.py:122 | `str.split` on one character: at least one segment, and no segment contains the separator |
| QueueNames.JoinSplit | colmena/redis/queue.py:122 | joining the segments of a split with the separator gives back the original string |
| QueueNames.SplitJoin | colmena/redis/queue.py:122 | splitting a join of separator-free segments gives back the segments |
| QueueNames.SplitWithoutDelimiter | colmena/redis/queue.py:122 | a string without the separator splits into itself alone |
| QueueNames.SplitConcat | colmena/redis/queue.py:122 | splitting `a_b` gives the segments of `a` followed by those of `b` |
| QueueNames.QueueName | colmena/redis/queue.py:78 | the queue name `f'{prefix}_{topic}'`, also built at queue.py:108 and queue.py:137; `SplitQueueName`, `TopicOfQueueName` and `QueueNameInjective` state what it guarantees |
| QueueNames.SplitQueueName | colmena/redis/queue.py:78 | the segments of `prefix_topic` are those of the prefix followed by the topic |
| QueueNames.TopicOf | colmena/redis/queue.py:122 | the topic read back from a queue name never contains `_` |
| QueueNames.TopicOfQueueName | colmena/redis/queue.py:78 | for a topic without `_`, the topic read back from `prefix_topic` is that topic, whatever `_` the prefix contains |
| QueueNames.UnderscoreTopicIsTruncated | colmena/redis/queue.py:77 | why topics with `_` are rejected: for every prefix and every topic containing `_`, the topic read back from `prefix_topic` is the topic's own last segment (`b` from `inputs_a_b`), never the topic itself |
| QueueNames.QueueNameInjective | colmena/redis/queue.py:78 | two topics give the same queue name under one prefix exactly when they are equal |
| QueueNames.InFamilyNames | colmena/redis/queue.py:78 | `prefix_T` is one of a family's queue names exactly when `T` is one of its topics |
| Broker.Pushed | colmena/redis/queue.py:142 | RPUSH appends to the tail of one list, changes no other list, and never stores an empty list |
| Broker.Popped | colmena/redis/queue.py:114-116 | popping a non-empty list removes its head and changes no other list |
| Broker.Deleted | colmena/redis/queue.py:152 | DEL empties exactly the listed keys and leaves every other list as it was |
| Broker.FirstNonEmpty | colmena/redis/queue.py:114-116 | the first key in the order given whose list is non-empty; none exactly when every list is empty |
| Broker.PopFirst | colmena/redis/queue.py:114-119 | BLPOP on several keys: nothing (a timeout, store unchanged) exactly when every list is empty; otherwise the head of the first non-empty list, with its key, and that head removed |
| Broker.PopFirstOnlyCandidate | colmena/redis/queue.py:114-119 | when exactly one watched list is non-empty, BLPOP takes that list's head |
| Broker.PushThenPop | colmena/redis/queue.py:114-119 | pushing onto an empty list and popping it gives back the pushed value and the original key space |
| Broker.PushKeepsHead | colmena/redis/queue.py:114-119 | FIFO: a push leaves unchanged what the next pop returns from a non-empty list, and the two commute |
| Broker.PushAllAppends | colmena/redis/queue.py:142 | pushing several values one by one appends them in order and leaves every other list alone |
| Broker.Server.Ping | colmena/redis/queue.py:86 | PING succeeds exactly when the server is reachable |
| Broker.Server.RPush | colmena/redis/queue.py:142 | the command fails without effect on an unreachable server; otherwise the key space becomes `Pushed` |
| Broker.Server.BLPop | colmena/redis/queue.py:114-119 | the command fails without effect on an unreachable server; otherwise reply and key space are `PopFirst` |
| Broker.Server.Delete | colmena/redis/queue.py:152 | the command fails without effect on an unreachable server; otherwise the key space becomes `Deleted` |
| Messages.Encode | colmena/redis/queue.py:208-210 | the wire form: pickled first when `use_pickle`, then serialized (also queue.py:316-318); `DecodeEncode` states its round trip |
| Messages.Decode | colmena/redis/queue.py:303-305 | the inverse of the wire form: parsed, then unpickled when `use_pickle` (also queue.py:233-235); `DecodeEncode` states its round trip |
| Messages.TaskEnvelope | colmena/redis/queue.py:200-205 | the task envelope of `send_inputs`, with absent keyword arguments replaced by an empty map; `Scenarios.DeliverTask` shows that the server receives exactly this envelope |
| Messages.DecodeEncode | colmena/redis/queue.py:208-210 | with a lawful serializer, parsing (and unpickling) an encoded envelope gives it back, and no encoding is the kill signal `null` |
| Queue.RegisterTopics | colmena/redis/queue.py:72-77 | the registered topics are the given ones plus `default`; registration fails exactly when some given topic contains `_` |
| Queue.Registered | colmena/redis/queue.py:109 | the name check of `get`/`put` accepts exactly the registered topics |
| Queue.QueueOfLayout | colmena/redis/queue.py:78 | every queue in the list is `prefix_t` for a registered `t`, which is the topic read back from its name |
| Queue.GetStep | colmena/redis/queue.py:104-122 | one connected-or-not `get`: the decorator's check first, then the topic check, then BLPOP and the topic read back from the queue name; `UnconnectedFails`, `GetFromTopic` and `GetFromAnyTopic` state what it returns |
| Queue.PutStep | colmena/redis/queue.py:136-142 | one `put`: the decorator's check, the topic check, then RPUSH; `UnconnectedFails` and `PutAppends` state what it does |
| Queue.FlushStep | colmena/redis/queue.py:148-152 | one `flush`: the decorator's check, then DEL of every registered queue; `UnconnectedFails` and `FlushEmpties` state what it does |
| Queue.UnconnectedFails | colmena/redis/queue.py:14-19 | before `connect()`, `get`, `put` and `flush` fail with "not connected" and change nothing |
| Queue.PutAppends | colmena/redis/queue.py:136-142 | a connected put succeeds exactly on a registered topic and a reachable server; it appends the data to `prefix_topic` and changes no other list; an unregistered topic fails with that topic and changes nothing |
| Queue.GetFromTopic | colmena/redis/queue.py:104-122 | a get on topic `T`: an unregistered `T` fails; otherwise it returns the head of `prefix_T` with topic `T` and removes it, or times out without change when `prefix_T` is empty |
| Queue.GetFromAnyTopic | colmena/redis/queue.py:104-122 | a get on all topics times out exactly when every registered queue is empty; otherwise it returns and removes the head of the first non-empty queue in list order, with that queue's topic |
| Queue.PutAll | colmena/redis/queue.py:136-142 | several `put` calls in a row on one topic; `PutAllPushes` and `PutAllThenGet` state their effect |
| Queue.PutAllPushes | colmena/redis/queue.py:136-142 | successive puts on a registered topic are successive RPUSHes onto its one queue |
| Queue.PutAllThenGet | colmena/redis/queue.py:104-142 | FIFO over many puts: after puts of `vs` on an empty topic `T`, the queue holds exactly `vs`, nothing else changed, and a get on `T` returns `(T, vs[0])` and leaves `vs[1..]` |
| Queue.PutThenGet | colmena/redis/queue.py:104-142 | on an empty queue, put `P` on `T` followed by a get on `T` from any view of the same family returns `(T, P)` and restores the key space |
| Queue.PutThenGetAny | colmena/redis/queue.py:104-142 | on an empty family, put `P` on `T` followed by a get on all topics returns `(T, P)` and restores the key space |
| Queue.FlushEmpties | colmena/redis/queue.py:147-152 | a connected flush empties every registered queue and leaves every key outside the family untouched |
| Queue.FlushThenGetTimesOut | colmena/redis/queue.py:104-152 | after a flush, a get on any registered topic or on all topics times out |
| Queue.RedisQueue.constructor | colmena/redis/queue.py:66-78 | the queue list holds exactly the names `prefix_t` of the registered topics, once each (one entry per topic, no duplicates); the queue starts unconnected |
| Queue.RedisQueue.Create | colmena/redis/queue.py:57-78 | construction fails (with invalid topic name) exactly when a given topic contains `_`; otherwise the queue is unconnected, with the given prefix and the registered topics |
| Queue.RedisQueue.Connect | colmena/redis/queue.py:80-89 | connect is idempotent; the first call sets the client and then fails when the ping fails, and the client stays set |
| Queue.RedisQueue.IsConnected | colmena/redis/queue.py:159-161 | `is_connected`: a client has been set; `Connect` ensures it, and the step functions fail with "not connected" without it (`UnconnectedFails`) |
| Queue.RedisQueue.Get | colmena/redis/queue.py:91-125 | the reply and the new key space are `GetStep` of the old key space |
| Queue.RedisQueue.Put | colmena/redis/queue.py:127-145 | the outcome and the new key space are `PutStep` of the old key space |
| Queue.RedisQueue.Flush | colmena/redis/queue.py:147-157 | deleting the queues one by one amounts to `FlushStep` of the old key space |
| Channels.InputsPrefix | colmena/redis/queue.py:181 | the task family's prefix, `inputs` or `name_inputs` (also queue.py:267); `FamiliesDisjoint` states it never collides with the result family |
| Channels.ResultsPrefix | colmena/redis/queue.py:182 | the result family's prefix, `results` or `name_results` (also queue.py:268); `FamiliesDisjoint` states it never collides with the task family |
| Channels.FamiliesDisjoint | colmena/redis/queue.py:181-182 | for one name, no task queue `name_inputs_t` is a result queue `name_results_u` |
| Channels.ResultsLeaveInputs | colmena/redis/queue.py:267-268 | a put or flush on the result family leaves every task queue of the same name as it was |
| Channels.CleanSlateEmpties | colmena/redis/queue.py:275-277 | flushing the result family and then the task family empties every queue of both |
| Channels.ClassifyTask | colmena/redis/queue.py:296-307 | what `get_task` makes of its get; `ClassifyTaskCases` and `ClassifyEncoded` state its cases |
| Channels.ResultOf | colmena/redis/queue.py:228-236 | what `get_result` makes of its get; `ResultOfEncoded` states its round trip |
| Channels.ClassifyTaskCases | colmena/redis/queue.py:293-307 | `get_task` classifies in order: a timeout exactly on an empty reply; the kill signal exactly on a `null` payload on any topic; otherwise the parsed task with the reply's topic |
| Channels.ClassifyEncoded | colmena/redis/queue.py:303-307 | an encoded envelope on topic `T` is classified as that task on `T` |
| Channels.ResultOfEncoded | colmena/redis/queue.py:224-241 | `get_result` returns the envelope that was encoded |
| Channels.SendInputsThenGetTask | colmena/redis/queue.py:188-211 | on an empty task family, a task sent on `T` is the task `get_task` returns, on `T`, and the key space is restored |
| Channels.KillSignalThenGetTask | colmena/redis/queue.py:243-245 | on an empty task family, `send_kill_signal` followed by `get_task` gives the kill signal |
| Channels.ClientQueues.Create | colmena/redis/queue.py:167-186 | success exactly when the topics register and the server answers; then the outbound queue is on `name_inputs` and the inbound queue on `name_results`, both connected to the same server with the registered topics |
| Channels.ClientQueues.SendInputs | colmena/redis/queue.py:188-211 | puts the encoded envelope on `topic`; missing keyword arguments become an empty map |
| Channels.ClientQueues.GetResult | colmena/redis/queue.py:213-241 | the get's failure, timeout or payload, parsed into a result (the topic is not returned) |
| Channels.ClientQueues.SendKillSignal | colmena/redis/queue.py:243-245 | puts `null` on the default topic of the task family |
| Channels.MethodServerQueues.Create | colmena/redis/queue.py:251-277 | like the client channel with the families swapped; with a clean slate both families end up empty and nothing else changes, otherwise the key space is unchanged |
| Channels.MethodServerQueues.GetTask | colmena/redis/queue.py:279-307 | a get on all task topics, classified as a timeout, the kill signal, or the task with its topic |
| Channels.MethodServerQueues.SendResult | colmena/redis/queue.py:309-318 | puts the encoded result on `topic` of the result family |
| Channels.MakeQueuePairs | colmena/redis/queue.py:22-39 | success exactly when the topics register and the server answers; then the two channels are cross-wired on one server with the same topics, codec and pickling; with a clean slate both families are empty and every other key keeps its list; otherwise the key space is unchanged |
| Scenarios.KillSignalStopsServer | colmena/redis/queue.py:243-299 | on a fresh pair, a kill signal makes the server's next `get_task` report the kill signal |
| Scenarios.DeliverTask | colmena/redis/queue.py:188-307 | with the task family empty, the task a client sends on `T` is what the paired server receives, on `T` |
| Scenarios.DeliverResult | colmena/redis/queue.py:213-318 | with the client's result queue for `T` empty, the result the server sends on `T` is what `get_result(topic=T)` returns |
| Scenarios.Exchange | colmena/redis/queue.py:188-318 | on a paired client and server whose families are empty on `T`, the server receives exactly the task sent on `T`, and the client gets back exactly the result sent on `T` |
| Scenarios.TaskCycle | colmena/redis/queue.py:22-318 | on a fresh pair on any registered topic `T`: the server receives exactly the task sent on `T`, and the client gets back exactly the result sent on `T` |

## Left out

- Networking, the real Redis client and hostname/port are left out. A
  `Server` object stands in for the server at a hostname and port, and whether
  it can be reached is a field that the environment sets.
- Timeouts are left out. A blocking get on empty queues returns at once with
  the timeout reply (`None`), as though a timeout had elapsed. This covers
  `timeout=None` (block forever), the wall-clock wait and the `int(timeout)`
  truncation.
- Concurrency is left out. Several processes sharing one queue, and the
  server becoming unreachable in the middle of a flush, are not modelled.
- Logging is left out: the warnings printed on `ConnectionError` and the
  `logger.info` calls only produce output.
- `Result.json`, `Result.parse_raw`, `pickle_data` and `unpickle_data` belong
  to `colmena.models` and are not part of this model. They are the functions
  of a `Codec`.
  - `Lawful` is the assumption on them: parsing undoes serialising, a
    serialised envelope is never the literal `null`, and unpickling undoes
    pickling.
  - The `exclude_unset=True` option of `json` is not modelled separately.
- The timestamps set by `mark_result_received` and `mark_input_received` are
  left out, and so is any field of `Result` other than the method, the
  positional arguments and the keyword arguments.
- Channels.ClientQueues.GetResult: the topic is not returned, because
  `get_result` unpacks it and drops it (`colmena/redis/queue.py:230-241`).
- The `AttributeError` branch of `flush` is left out. It catches a missing
  Redis client, which the `_error_if_unconnected` decorator already rules out.
- Python's `-O` flag removes `assert` statements. The model keeps the checks
  those asserts make.
- Queue.RedisQueue.constructor: the order of the queue list is not fixed,
  because Python builds it by iterating over a set. Every contract holds for
  any order.
- Default arguments are not modelled as defaults. The ones the model keeps
  are explicit parameters, listed above. `port=6379` and `timeout=None` are
  left out together with the network address and the timeout.
- Channels.MakeQueuePairs: `topics` is modelled as a list that every queue
  reads in full. The documentation describes it as a list of topics. In the
  source it is any iterable, and each of the four `RedisQueue`s calls
  `set(topics)` on the same object (`colmena/redis/queue.py:75`), which is
  handed on at `colmena/redis/queue.py:38-39`, `colmena/redis/queue.py:181-182`
  and `colmena/redis/queue.py:267-268`. A one-shot iterable such as a
  generator is used up by the client's outbound queue. The other three queues
  then register only `default`, and a task sent on any other topic lands on a
  queue the server never watches. The model does not capture this.
- Channels.MethodServerQueues.SendResult: with `use_pickle`, the source calls
  `result.pickle_data()` on the caller's own `Result`
  (`colmena/redis/queue.py:316-317`). The change happens in place, and the
  caller's object stays pickled after the call. The model passes the envelope
  by value through the pure `Codec.pickle`, so the caller's envelope is
  unchanged. `send_inputs` pickles a `Result` it creates itself
  (`colmena/redis/queue.py:205-209`), so nothing is lost there.
- The positional argument values are a small closed `Value` datatype, not
  arbitrary Python objects.
