# quantnet_mq RPC layer in Dafny

This project models the request/response layer of `quantnet_mq`, a Python
library that runs remote procedure calls over an MQTT 5 broker. It also models
the plain topic-subscription server that sits next to it. The model covers:

- **RpcClient** (`RPCClient`). `call` publishes a request to a target command.
  The request carries a fresh correlation token and the client's response
  topic `rpc-res/<cid>`. The client then files a future under the token. Its
  message callback pops the future named by an incoming response's
  correlation data and sets the raw payload as its result, which the caller,
  still holding the future, reads when its wait ends. Two modes wait for the
  future: a synchronous wait and a background response task.
- **RpcServer** (`RPCServer`). Its message callback checks the MQTT
  properties and decodes the JSON payload. It looks up `cmd` in its handler
  table, builds the typed request instance and runs the handler. It
  publishes at most one response back to the requester: a FAILED or OK
  status, or the handler's own truthy reply. Nothing is published when the
  response topic or correlation data is missing. It returns an MQTT 5
  PUBREC reason code. The codes are 0x00, 0x83, 0x90 and 0x99, from
  section 3.5.2.1 of the MQTT Version 5.0 standard.
- **Loader** (`schemaLoader.coerceRPC`). When direct construction of a
  request fails, this rebuilds a typed object from a raw dict. For every
  union-typed attribute it tries each candidate class in order. The first
  candidate that constructs and validates wins. Rejections are logged, and an
  attribute no candidate fits raises one aggregated error.
- **MsgServer**. It routes a message to the handler of its exact topic, else
  to the handler of its single-level wildcard key, else nowhere.
- **Topics**, **Codes** and **Rpc**: the MQTT client wrapper's topic helpers,
  the status-code enumeration `Code`, and the `RPCHandler` record.
- **EndToEnd**: one client call answered by one server.

The schema machinery the layer calls into is a `Loader.Schema` record of
function values. It covers importlib lookup of a class path, `from_json`,
construction with keyword arguments, and construct-and-validate of one
candidate. Handler callbacks are function values too. Payloads are decoded
JSON documents or malformed text (`Messages.Wire`). The MQTT properties the
layer reads are an optional response topic and optional correlation data. A
publication is a `Messages.Publish` record.

Two behaviours follow the code as written:

- The client's message callback reads `properties["correlation_data"]`
  outside its `try` (quantnet_mq/rpcclient.py:58). A response without
  correlation data therefore raises `KeyError` instead of being dropped.
- A timed-out call leaves its cancelled future in the correlation table
  (quantnet_mq/rpcclient.py:144-149). The callback's unknown-token path
  (quantnet_mq/rpcclient.py:63-68) drops stray responses silently, but a late
  response to such a call raises instead. This is a finding, listed below.

## Model

| member | source | states |
|---|---|---|
| Codes.FromValue | quantnet_mq/__init__.py:28-39 | `Code(n)` exists exactly for 0 to 7 and has value `n` |
| Codes.FromName | quantnet_mq/__init__.py:28-39 | the member found for a name carries that name |
| Codes.ServerCodes | quantnet_mq/__init__.py:32-38 | `OK` is 0 and `FAILED` is 6, with the names the server sends |
| Codes.CodesAreZeroToSeven | quantnet_mq/__init__.py:28-39 | exactly eight members, with values 0 through 7 in declaration order |
| Codes.ValueRoundTrip | quantnet_mq/__init__.py:28-39 | member to value to member is the identity |
| Codes.NameRoundTrip | quantnet_mq/__init__.py:28-39 | member to name to member is the identity; a name is found exactly when some member has it |
| Codes.CodesInjective | quantnet_mq/__init__.py:28-39 | distinct members have distinct values and distinct names |
| Strings.Count | quantnet_mq/gmqtt/mqttclient.py:18-20 | occurrence count is at most the length, and zero exactly when the character is absent |
| Strings.Split | quantnet_mq/gmqtt/mqttclient.py:18-20 | `str.split(sep)` gives at least one part, and no part contains the separator |
| Strings.JoinSplit | quantnet_mq/gmqtt/mqttclient.py:18-20 | joining the split parts with the separator restores the string |
| Strings.SplitCount | quantnet_mq/gmqtt/mqttclient.py:18-20 | the number of parts is one more than the number of separators |
| Strings.SplitHead | quantnet_mq/gmqtt/mqttclient.py:22-24 | the first part is the text before the first separator |
| Strings.SplitJoin | quantnet_mq/gmqtt/mqttclient.py:18-20 | splitting a join of separator-free parts gives the parts back |
| Strings.SplitNoSep | quantnet_mq/gmqtt/mqttclient.py:18-20 | a string without the separator splits into itself alone |
| Strings.SplitPrefix | quantnet_mq/gmqtt/mqttclient.py:18-20 | `p + sep + q` with `p` separator-free splits into `p` followed by the parts of `q` |
| Strings.ContainsOccurs | quantnet_mq/gmqtt/mqttclient.py:14-16 | the substring test holds exactly when the substring occurs at some index |
| Strings.RSplitOnce | quantnet_mq/rpcserver.py:108 | `rsplit('.', 1)` unpacks into two only when a dot exists; the head, a dot and the dot-free tail rebuild the string |
| Topics.TopicMatch | quantnet_mq/gmqtt/mqttclient.py:14-16 | `topic_match` is true exactly when `sub` occurs somewhere in `topic` |
| Topics.TopicTokenise | quantnet_mq/gmqtt/mqttclient.py:18-20 | levels are one more than the slashes, contain no slash, and rejoin to the topic |
| Topics.TopicWildcard | quantnet_mq/gmqtt/mqttclient.py:22-24 | the wildcard key is the text before the first `/` followed by `/+` (the whole topic when it has no `/`) |
| Topics.TopicMatchReflexive | quantnet_mq/gmqtt/mqttclient.py:14-16 | every topic matches itself |
| Topics.TopicMatchNotPrefix | quantnet_mq/gmqtt/mqttclient.py:14-16 | `"42"` matches `"sensors/42"` without being a prefix: the test is a substring test, not the documented prefix test |
| Topics.TopicMatchPrefix | quantnet_mq/gmqtt/mqttclient.py:14-16 | every prefix matches |
| Topics.TopicWildcardIdempotent | quantnet_mq/gmqtt/mqttclient.py:22-24 | the wildcard key of a wildcard key is itself |
| Topics.TopicWildcardOfLevels | quantnet_mq/gmqtt/mqttclient.py:22-24 | all topics with the same first level share one wildcard key |
| Topics.TopicWildcardExample | quantnet_mq/gmqtt/mqttclient.py:22-24 | `"sensors/42"` has wildcard key `"sensors/+"` |
| Wrappers.Get | quantnet_mq/schema/loader.py:11-12 | `dict.get` finds a value exactly when the key is present, and it is the stored one |
| Messages.Parse | quantnet_mq/rpcserver.py:60-64 | decoding fails exactly for malformed text, and the result is a dict exactly for JSON objects |
| Messages.Delivered | quantnet_mq/rpcserver.py:41-45 | the broker assumption the end-to-end lemmas rest on: a subscriber receives the correlation data and response topic the publisher set, which an MQTT 5 broker forwards unaltered |
| Messages.ReadStatus | quantnet_mq/rpcserver.py:68-76 | a status is read back only from a document that has a top-level `status` |
| Messages.StatusRoundTrip | quantnet_mq/rpcserver.py:68-76 | reading the status of a built response gives back its code and reason |
| Messages.StatusResponseInjective | quantnet_mq/rpcserver.py:68-76 | distinct code and reason pairs give distinct response documents |
| Messages.StatusJson | quantnet_mq/rpcserver.py:70-73 | the status object holds the numeric code and its name, and a reason exactly when one is given |
| Messages.StatusResponse | quantnet_mq/rpcserver.py:96-101 | the response holds the status and a top-level reason exactly when one is given |
| Strings.Join | quantnet_mq/schema/loader.py:30 | joining no parts gives the empty string, and the first part begins the result |
| Strings.JoinEndsWithLast | quantnet_mq/schema/loader.py:30 | the last part ends the result |
| Rpc.SetHandler | quantnet_mq/rpcserver.py:184-185 | adds exactly the key `cmd` with the given callback and class path, keeps every other entry, and keeps entries filed under their own names |
| Rpc.HandleRunsCallback | quantnet_mq/rpc.py:1-20 | `handle` applies the registered callback; the accessors return the constructor's arguments |
| Rpc.SetHandlerOverwrites | quantnet_mq/rpcclient.py:167-168 | registering a command twice keeps only the second registration |
| Loader.ErrorsOf | quantnet_mq/schema/loader.py:25-26 | the log of `k` rejections has `k` entries, each the matching candidate's error, in trial order |
| Loader.TryCandidates | quantnet_mq/schema/loader.py:17-28 | the picked candidate is the first accepted one, all before it were rejected, and their errors are logged in order; with none accepted, all errors are logged; a missing class stops the loop |
| Loader.FirstMatchWins | quantnet_mq/schema/loader.py:17-28 | when candidate `k` is the first accepted, it is picked with exactly the errors of the candidates before it |
| Loader.LaterCandidatesUntried | quantnet_mq/schema/loader.py:24 | after a pick (the `break`), appending candidates changes nothing |
| Loader.UnionNames | quantnet_mq/schema/loader.py:15-16 | the names of exactly the list-typed attributes |
| Loader.CoerceAttrs | quantnet_mq/schema/loader.py:14-31 | the error log only grows; a coerced object gains exactly the union attributes and keeps all other fields; a failure names a union attribute |
| Loader.CoerceAttrsSequential | quantnet_mq/schema/loader.py:14-31 | the attribute loop over `a1 + a2` is the loop over `a1` followed by the loop over `a2` |
| Loader.SharedErrorLog | quantnet_mq/schema/loader.py:13-31 | the single error list is shared by all attributes: a failing attribute reports the earlier attributes' errors, then all of its own |
| Loader.AggregateError | quantnet_mq/schema/loader.py:29-31 | the text starts with the header line, and the rest is the logged errors joined by newlines |
| Loader.AggregateErrorLines | quantnet_mq/schema/loader.py:29-31 | the exception text is the header line followed by every logged error, one per line, in order |
| Loader.Header | quantnet_mq/schema/loader.py:10-12 | the new object holds exactly the `cmd` and `agentId` present in the message, copied unchanged |
| Loader.CoerceRpc | quantnet_mq/schema/loader.py:9-32 | a result is an object with the header keys and every union attribute, with `cmd` and `agentId` preserved; an unfitted attribute raises the aggregate error |
| Loader.CoercedValuesAreFirstMatches | quantnet_mq/schema/loader.py:14-28 | each union attribute of a coerced object holds its first accepted candidate |
| Loader.TryCandidatesLoop | quantnet_mq/schema/loader.py:17-28 | the imperative candidate loop with `break` computes exactly `TryCandidates` |
| Loader.CoerceRpcLoop | quantnet_mq/schema/loader.py:9-32 | the imperative nested loops of `coerceRPC` compute exactly `CoerceRpc` |
| RpcServer.SetHandler | quantnet_mq/rpcserver.py:184-185 | files `RPCHandler(cmd, cb, classpath)` under `cmd`, whose `cb` is the given callback, and leaves other commands unchanged |
| RpcServer.SendResponse | quantnet_mq/rpcserver.py:35-46 | the response goes to the request's response topic, echoes its correlation data, at QoS 1 without retain, carrying the body |
| RpcServer.Str | quantnet_mq/rpcserver.py:94 | `f"{cmd}"` of a string is the string itself; any other value is rendered by Python's `str` |
| RpcServer.Serialise | quantnet_mq/rpcserver.py:37-40 | a dict is published as it is and a schema object as its `serialize()` output; anything else raises its error |
| RpcServer.Instance | quantnet_mq/rpcserver.py:108-119 | a class path without a dot fails to unpack; a class that does not resolve raises its error; `from_json` wins when it succeeds, and only when it raises is the dict coerced |
| RpcServer.RunHandler | quantnet_mq/rpcserver.py:106-128 | the handler runs exactly when the instance can be built; a build error or handler exception is the block's error; a falsy reply becomes the OK status and a truthy one its serialised form |
| RpcServer.Dispatch | quantnet_mq/rpcserver.py:52-141 | raises only without the hash guard, and then exactly for an unhashable `cmd` with the metadata present; every publication answers the requester; a handler runs only for a registered string `cmd` |
| RpcServer.OnMessageAsWritten | quantnet_mq/rpcserver.py:52-141 | the callback as written raises exactly when the metadata is present and the request is a dict whose `cmd` is a list or object |
| RpcServer.OnMessage | quantnet_mq/rpcserver.py:52-141 | never raises; publishes a response exactly when both properties are present, else returns TOPIC_NAME_INVALID; the response goes to the requester; a handler runs only for a registered string `cmd`; SUCCESS only when a handler ran |
| RpcServer.EarlyRejections | quantnet_mq/rpcserver.py:59-104 | undecodable, `cmd`-less and unknown-`cmd` requests each get one FAILED response with the reason text the source sends (`Message decode error`, `Invalid RPC message format`, `cmd not defined: <cmd>`), PAYLOAD_FORMAT_INVALID, and no handler call |
| RpcServer.StatusMatchesReasonCode | quantnet_mq/rpcserver.py:52-141 | every non-SUCCESS return goes with a published FAILED status that carries a reason |
| RpcServer.FalsyReplyAnsweredOk | quantnet_mq/rpcserver.py:114-128 | a falsy handler reply is answered with a synthesised OK status and SUCCESS is returned, whether `from_json` or coercion built the instance |
| RpcServer.TruthyReplyPublished | quantnet_mq/rpcserver.py:120-128 | a truthy dict reply is published as it is, a truthy schema object as its serialised form, with SUCCESS |
| RpcServer.HandlerFailureContained | quantnet_mq/rpcserver.py:106-141 | an exception in the `try` block becomes a FAILED response `Failed cmd <cmd>: <error>` and IMPLEMENTATION_SPECIFIC_ERROR |
| RpcServer.AsWrittenAgreesOnHashableCmd | quantnet_mq/rpcserver.py:91-92 | the as-written and corrected callbacks differ only on an unhashable `cmd` |
| RpcServer.UnhashableCmdEscapes | quantnet_mq/rpcserver.py:91-92 | `{"cmd": []}` makes the as-written callback raise, while the corrected one answers FAILED |
| RpcClient.ResponseQueue | quantnet_mq/rpcclient.py:34 | the response topic is `rpc-res/` followed by the client id |
| RpcClient.NewClient | quantnet_mq/rpcclient.py:31-42 | an empty id is replaced by the generated one; all tables start empty |
| RpcClient.SetHandler | quantnet_mq/rpcclient.py:167-168 | files `RPCHandler(cmd, cb, classpath)` under `cmd`, whose `cb` is the given callback; other commands and the rest of the client are unchanged |
| RpcClient.AddSubscription | quantnet_mq/rpcclient.py:99-100 | records the queue with its QoS; other subscriptions and the rest of the client are unchanged |
| RpcClient.Start | quantnet_mq/rpcclient.py:96-97 | after start-up the response topic is subscribed at QoS 2, and nothing else changed |
| RpcClient.RequestFields | quantnet_mq/rpcclient.py:128 | the fallback raw message has exactly `cmd`, `agentId` and `payload`, holding the target, the client id and the message |
| RpcClient.BuildRequest | quantnet_mq/rpcclient.py:122-129 | direct construction is used when it succeeds, and coercion of the same three fields otherwise |
| RpcClient.Call | quantnet_mq/rpcclient.py:109-142 | an unknown target raises; for a registered target, a class path without a dot, a class that does not resolve, a request that cannot be built and a built request whose `serialize()` raises each raise their error, publishing nothing and filing nothing; otherwise the call publishes the serialised request to the given or default topic with the token as correlation data, the client's response topic, QoS 1, no retain, and files a new waiting future under the token, changing nothing else |
| RpcClient.OnMessage | quantnet_mq/rpcclient.py:51-76 | malformed payloads and missing correlation data raise; unknown tokens are dropped without change; a waiting future is popped and gets the raw payload as its result, and the callback returns SUCCESS; a cancelled one is popped and raises `Failed to set future result:invalid state` |
| RpcClient.Expire | quantnet_mq/rpcclient.py:144-149 | a timeout cancels the future but keeps its token in the table |
| RpcClient.ExpireReclaim | quantnet_mq/rpcclient.py:144-149 | the corrected timeout removes exactly that token |
| RpcClient.AwaitSync | quantnet_mq/rpcclient.py:144-151 | the wait returns the result the message callback set on the future, exactly when it set one; otherwise it raises `TimeoutError`, cancels the future and leaves its token in the table |
| RpcClient.AwaitSyncReclaiming | quantnet_mq/rpcclient.py:144-151 | the corrected wait: the same result, and a timeout that removes the token |
| RpcClient.RespTask | quantnet_mq/rpcclient.py:170-184 | the task runs the handler's callback on the future's result exactly when one was set, and logs the callback's exception; without a result it logs the timeout |
| RpcClient.ResponseResolvesCall | quantnet_mq/rpcclient.py:51-76 | a response to a call in flight resolves it with the payload and removes only its token, and the synchronous wait then returns that payload |
| RpcClient.UnansweredCallTimesOut | quantnet_mq/rpcclient.py:144-149 | a call that no response reaches times out and keeps its entry, now cancelled |
| RpcClient.ResponseTaskRunsCallback | quantnet_mq/rpcclient.py:170-184 | an asynchronous call answered in time runs its handler's callback on the answer; unanswered, its task logs a timeout |
| RpcClient.DuplicateResponseIgnored | quantnet_mq/rpcclient.py:63-68 | a second response with the same token is dropped and changes nothing |
| RpcClient.UnknownTokenDropped | quantnet_mq/rpcclient.py:63-68 | a response to an unknown token is dropped, also from an empty table |
| RpcClient.LateResponseRaisesAsWritten | quantnet_mq/rpcclient.py:70-74 | as written, a response after a timeout makes the message callback raise |
| RpcClient.LateResponseDroppedWhenReclaimed | quantnet_mq/rpcclient.py:63-68 | with the corrected timeout, a late response is dropped silently |
| MsgServer.IsSpaceListed | quantnet_mq/msgserver.py:117 | the code-point ranges of `str.isspace` accept exactly Python's 29 whitespace characters |
| MsgServer.LStrip | quantnet_mq/msgserver.py:117 | drops exactly the leading whitespace: what is dropped is whitespace, and what remains is empty or starts with a non-space |
| MsgServer.RStrip | quantnet_mq/msgserver.py:117 | drops exactly the trailing whitespace: what is dropped is whitespace, and what remains is empty or ends with a non-space |
| MsgServer.BlankIffAllSpace | quantnet_mq/msgserver.py:117 | `not topic.strip()` holds exactly for a topic made only of whitespace, the empty topic included |
| MsgServer.Subscribe | quantnet_mq/msgserver.py:116-123 | rejects a non-string or blank topic and a truthy non-callable callback with their messages; otherwise sets exactly that topic's entry; preserves the table invariant |
| MsgServer.Route | quantnet_mq/msgserver.py:47-82 | the exact topic's handler first, else the wildcard key's, else none |
| MsgServer.OnMessage | quantnet_mq/msgserver.py:43-82 | malformed payloads raise; at most the routed handler's callback runs, with the payload; no handler means unknown topic; a table built by `subscribe` never makes a JSON message raise |
| MsgServer.ExactTopicWins | quantnet_mq/msgserver.py:47-64 | an exact-topic handler takes precedence over a wildcard handler |
| MsgServer.WildcardDelivery | quantnet_mq/msgserver.py:64-80 | a message to `sensors/42` reaches the `sensors/+` handler |
| MsgServer.NullCallbackConsumes | quantnet_mq/msgserver.py:60-63 | a topic subscribed with no callback consumes its messages without running anything |
| MsgServer.StartSubscriptions | quantnet_mq/msgserver.py:104-105 | start-up subscribes, at QoS 2, to the topic of every handler and to nothing else |
| MsgServer.StartSubscribesKeys | quantnet_mq/msgserver.py:104-123 | for a table built by `subscribe`, start-up subscribes to exactly the registered topics |
| EndToEnd.CallIsAnswered | quantnet_mq/rpcserver.py:35-46 | whatever the corrected server makes of a published request, its answer reaches the caller's response topic, to which a started client stays subscribed across the call, under the call's token, resolves that call with the answer, and is what the synchronous wait returns |
| EndToEnd.CallIsAnsweredAsWritten | quantnet_mq/rpcserver.py:91-92 | the server as written gives the same answer whenever the request's `cmd` is hashable |
| EndToEnd.RedeliveredAnswerDropped | quantnet_mq/rpcclient.py:63-68 | a redelivered answer finds its call gone and is dropped |

## Left out

- MQTT transport: connecting, authentication, the broker itself, and `on_connect`, `on_disconnect` and `on_subscribe`. These are I/O and logging only. The server's `on_connect` subscribes to its RPC topic at QoS 2, and that is not modelled.
- `asyncio` and `uvloop` scheduling. A wait is taken at its deadline, after the responses delivered before it have run through the message callback. Other interleavings are not modelled.
- JSON text parsing and serialisation, UTF-8 decoding of payloads and correlation data, and JSON floats. Payloads are decoded values or malformed text, and numbers are integers.
- The schema classes (`quantnet_mq/schema/models.py`), importlib and `getattr` lookup, `from_json`, construction, `validate` and `serialize()`. These are the abstract `Loader.Schema`. Which objects construct, validate and serialise is left to them.
- The exception texts of library errors (`json.loads`, tuple unpacking, unhashable types, calling a non-callable, and `set_result` on a cancelled future) are representative strings.
- Python's `str()` of a non-string `cmd` is a parameter `show`.
- `quantnet_mq/util.py` (`Constants.DEFAULT_RPC_TOPIC`) is not part of this model. The default topic is a field of the client.
- `stop`: the client's `_stop_mqttclient` reads attributes that are never set, and the servers' versions do nothing.
- `RPCServer.on_rpcmsg`: nothing else uses it.
- The server's `if (handler)` test is always true for a registered handler, so it is dropped.
- A handler coroutine is treated like a plain return value once awaited.
- A client callback that is not a coroutine function is not modelled.
- `MQTTClientInterface`, and the TLS and will setters: these are abstract or empty.
- `msgclient.py`, `tools/configbuidler.py`, `schema/scripts/validator.py` and the tests are not part of this model.
- Loader.CoerceRpc: an accepted candidate is stored even if the Python object would be falsy. The source's `if not getattr(obj, attr)` would then raise. Object truthiness belongs to the schema classes.
- Loader.CoerceRpc: `cmd` and `agentId` are assumed not to be union-typed. If one were, and no candidate fitted, the source would see its already-set value as truthy and not raise.
- MsgServer.OnMessage: the callback's own exceptions are not modelled. A callback is named by an id and `Ran` records that it was awaited.
- Ordering inside `call`: it publishes the request and then files the future, with no await between the two steps, so no response can come in between. The model files the future and returns the publication together.

## Findings

| source | as written | input that shows it | evidently intended | confidence | as-written member | corrected member |
|---|---|---|---|---|---|---|
| quantnet_mq/rpcserver.py:91-92 | `cmd not in self._rpc_handlers.keys()` runs outside any `try`; a `cmd` that is a JSON list or object is unhashable and raises `TypeError` out of the callback | request `{"cmd": []}` with response topic and correlation data | answer with a FAILED "cmd not defined" response and PAYLOAD_FORMAT_INVALID, like any unknown command | not executed | RpcServer.OnMessageAsWritten (shown by RpcServer.UnhashableCmdEscapes) | RpcServer.OnMessage |
| quantnet_mq/rpcclient.py:144-149, 70-74 | a timed-out `call` leaves its cancelled future in `_sent_requests`; a late response pops it, `set_result` raises, and the callback re-raises "Failed to set future result" | a call whose wait times out, followed by a response with its token | the timeout removes the entry, and the late response is dropped silently | not executed | RpcClient.AwaitSync (shown by RpcClient.LateResponseRaisesAsWritten) | RpcClient.AwaitSyncReclaiming (shown by RpcClient.LateResponseDroppedWhenReclaimed) |
