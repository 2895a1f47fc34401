/** `RPCClient`: turns a publish into a call awaiting its response. Each call
    publishes with a fresh correlation token and the client's response topic,
    then files a future under the token; the message callback pops the future
    for the token a response carries and resolves it with the raw payload. */
module RpcClient {
  import opened Wrappers
  import opened Messages
  import Codes
  import opened Strings
  import opened Loader
  import Rpc

  /** A client-side callback: run by the response task with the response body. */
  type Callback = Wire -> Result<(), string>

  type Handler = Rpc.RpcHandler<Callback>

  /** The state of a future while it is filed in the correlation table:
      pending, or cancelled because its wait timed out (`asyncio.wait_for`
      cancels it). The message callback pops a future before resolving it, so a
      resolved future is never found in the table. */
  datatype Future = Waiting | Cancelled

  /** The client's state: its id, default RPC topic, handler table, recorded
      subscriptions, the correlation table `_sent_requests`, and the results
      set on the futures the message callback popped. Futures are named by
      their correlation tokens; `resolved` is the part of each future that its
      caller, still holding it, reads once its wait ends. */
  datatype Client = Client(
    cid: string,
    topic: string,
    handlers: map<string, Handler>,
    subscriptions: map<string, nat>,
    sent: map<string, Future>,
    resolved: map<string, Wire>)

  const ResponsePrefix: string := "rpc-res/"

  /** The topic all responses to this client arrive on (`self._queue`). */
  function ResponseQueue(cid: string): (q: string)
    ensures ResponsePrefix <= q && q[|ResponsePrefix|..] == cid
  {
    ResponsePrefix + cid
  }

  /** `RPCClient(cid, topic)`: `cid or uuid4().hex`, with the generated id passed
      in as `generated`; empty tables. */
  function NewClient(cid: string, generated: string, topic: string): (c: Client)
    ensures c.cid == if cid == "" then generated else cid
    ensures c.topic == topic
    ensures c.handlers == map[] && c.subscriptions == map[] && c.sent == map[] && c.resolved == map[]
  {
    Client(if cid == "" then generated else cid, topic, map[], map[], map[], map[])
  }

  /** `set_handler(cmd, cb, classpath)`. */
  function SetHandler(c: Client, cmd: string, cb: Callback, classpath: string): (c': Client)
    ensures cmd in c'.handlers && c'.handlers[cmd] == Rpc.RpcHandler(cmd, cb, classpath)
    ensures c'.handlers[cmd].cb == cb
    ensures c'.handlers.Keys == c.handlers.Keys + {cmd}
    ensures forall k :: k in c.handlers && k != cmd ==> c'.handlers[k] == c.handlers[k]
    ensures c' == c.(handlers := c'.handlers)
  {
    c.(handlers := Rpc.SetHandler(c.handlers, cmd, cb, classpath))
  }

  /** `_add_subscription(queue, qos)`: records the subscription, replacing the
      QoS of an earlier one to the same topic. */
  function AddSubscription(c: Client, queue: string, qos: nat): (c': Client)
    ensures c'.subscriptions.Keys == c.subscriptions.Keys + {queue} && c'.subscriptions[queue] == qos
    ensures forall q :: q in c.subscriptions && q != queue ==> c'.subscriptions[q] == c.subscriptions[q]
    ensures c' == c.(subscriptions := c'.subscriptions)
  {
    c.(subscriptions := c.subscriptions[queue := qos])
  }

  /** The bookkeeping part of start-up: subscribe to the response topic with QoS 2. */
  function Start(c: Client): (c': Client)
    ensures ResponseQueue(c.cid) in c'.subscriptions && c'.subscriptions[ResponseQueue(c.cid)] == 2
    ensures c' == c.(subscriptions := c'.subscriptions)
  {
    AddSubscription(c, ResponseQueue(c.cid), 2)
  }


  /** The text `call` raises for an unregistered target. */
  function UnknownTarget(target: string): string
  {
    "RPC message target not defined: " + target
  }

  /** The raw message `call` falls back to coercing when direct construction fails. */
  function RequestFields(target: string, cid: string, msg: Json): (m: map<string, Json>)
    ensures m.Keys == {"cmd", "agentId", "payload"}
    ensures m["cmd"] == JStr(target) && m["agentId"] == JStr(cid) && m["payload"] == msg
  {
    map["cmd" := JStr(target), "agentId" := JStr(cid), "payload" := msg]
  }

  /** The request object `call` builds: `RPCClass(cmd=target, agentId=cid,
      payload=msg)`, or, when that raises, the coercion of the same three fields. */
  function BuildRequest(schema: Schema, pkg: string, cls: ClassSpec, target: string, cid: string, msg: Json)
    : (r: Result<Json, string>)
    ensures schema.construct(cls, RequestFields(target, cid, msg)).Success? ==>
              r == schema.construct(cls, RequestFields(target, cid, msg))
    ensures schema.construct(cls, RequestFields(target, cid, msg)).Failure? ==>
              r == CoerceRpc(schema.build, pkg, cls, RequestFields(target, cid, msg))
  {
    match schema.construct(cls, RequestFields(target, cid, msg))
    case Success(o) => Result.Success(o)
    case Failure(_) => CoerceRpc(schema.build, pkg, cls, RequestFields(target, cid, msg))
  }

  /** `call(target, msg, topic=topic)` up to the point where it starts waiting:
      check the target, build the request, serialise it (which validates it
      and can raise), publish it under the token `token`
      (`uuid4().hex`) with the client's response topic, then file a new,
      waiting future under that token. A failure carries neither a publication
      nor a new state: nothing was published and the table did not change. */
  function Call(c: Client, schema: Schema, target: string, msg: Json, topic: Option<string>, token: string)
    : (r: Result<(Client, Publish), string>)
    ensures target !in c.handlers ==> r == Failure(UnknownTarget(target))
    ensures r.Success? ==> target in c.handlers
    ensures target in c.handlers ==>
      var classpath := c.handlers[target].classpath;
      match RSplitOnce(classpath, '.')
      case None => r == Failure(UnpackError)
      case Some((pkg, _)) =>
        match schema.resolve(classpath)
        case Failure(e) => r == Failure(e)
        case Success(cls) =>
          var obj := BuildRequest(schema, pkg, cls, target, c.cid, msg);
          && (obj.Failure? ==> r == Failure(obj.error))
          && (obj.Success? ==>
                match schema.serialize(obj.value)
                case Failure(e) => r == Failure(e)
                case Success(doc) => r.Success? && r.value.1.payload == Doc(doc))
    ensures r.Success? ==>
      var (c', p) := r.value;
      && p.topic == (if topic.Some? then topic.value else c.topic)
      && p.correlationData == token
      && p.responseTopic == Some(ResponseQueue(c.cid))
      && p.qos == 1 && !p.retain
      && p.payload.Doc?
      && c' == c.(sent := c.sent[token := Waiting], resolved := c.resolved - {token})
  {
    var dest := if topic.Some? then topic.value else c.topic;
    if target !in c.handlers then Failure(UnknownTarget(target))
    else
      var h := c.handlers[target];
      match RSplitOnce(h.classpath, '.')
      case None => Failure(UnpackError)
      case Some((pkg, _)) =>
        match schema.resolve(h.classpath)
        case Failure(e) => Failure(e)
        case Success(cls) =>
          match BuildRequest(schema, pkg, cls, target, c.cid, msg)
          case Failure(e) => Failure(e)
          case Success(obj) =>
            match schema.serialize(obj)
            case Failure(e) => Failure(e)
            case Success(doc) =>
              var p := Publish(dest, Doc(doc), token, Some(ResponseQueue(c.cid)), 1, false);
              Result.Success((c.(sent := c.sent[token := Waiting], resolved := c.resolved - {token}), p))
  }

  /** What the message callback did with one response: dropped it (the
      callback returns `None`), resolved a future (it returns `code`), or
      raised. */
  datatype Demux = Dropped | Resolved(token: string, body: Wire, code: Codes.PubRecReasonCode) | Raised(error: string)

  const MissingCorrelation: string := "'correlation_data'"

  /** What `on_message` raises when `set_result` refuses a future that is
      already cancelled (asyncio's `InvalidStateError`). */
  const CancelledFutureError: string := "Failed to set future result:invalid state"

  /** `on_message`: the payload must be JSON and carry correlation data (else
      the callback raises). With an empty table or an unknown token the message
      is dropped and nothing changes; otherwise the future is popped, and a
      waiting one is resolved with the raw payload, which its caller then
      finds; resolving a future whose wait had timed out raises. */
  function OnMessage(c: Client, payload: Wire, props: Properties): (r: (Client, Demux))
    ensures r.1.Dropped? ==> r.0 == c
    ensures payload.Malformed? || props.correlationData.None? ==> r.1.Raised? && r.0 == c
    ensures r.1.Dropped? <==>
      payload.Doc? && props.correlationData.Some? && props.correlationData.value !in c.sent
    ensures r.1.Resolved? <==>
      payload.Doc? && props.correlationData.Some? && props.correlationData.value in c.sent
      && c.sent[props.correlationData.value] == Waiting
    ensures r.1.Resolved? ==>
      var token := props.correlationData.value;
      && r.1 == Resolved(token, payload, Codes.PubRecReasonCode.Success)
      && r.0 == c.(sent := c.sent - {token}, resolved := c.resolved[token := payload])
    ensures r.1.Raised? && payload.Doc? && props.correlationData.Some? ==>
      var token := props.correlationData.value;
      && token in c.sent && c.sent[token] == Cancelled
      && r.1 == Raised(CancelledFutureError)
      && r.0 == c.(sent := c.sent - {token})
  {
    if payload.Malformed? then (c, Raised(JsonDecodeError))
    else if props.correlationData.None? then (c, Raised(MissingCorrelation))
    else
      var token := props.correlationData.value;
      if |c.sent| == 0 then (c, Dropped)
      else if token !in c.sent then (c, Dropped)
      else
        var c' := c.(sent := c.sent - {token});
        match c.sent[token]
        case Waiting => (c'.(resolved := c.resolved[token := payload]), Resolved(token, payload, Codes.PubRecReasonCode.Success))
        case Cancelled => (c', Raised(CancelledFutureError))
  }

  /** A timed-out wait as written: `asyncio.wait_for` cancels the future, and
      nothing removes it from the table. */
  function Expire(c: Client, token: string): (c': Client)
    ensures c'.sent.Keys == c.sent.Keys
    ensures token in c.sent ==> c'.sent[token] == Cancelled
    ensures forall t :: t in c.sent && t != token ==> c'.sent[t] == c.sent[t]
    ensures c' == c.(sent := c'.sent)
  {
    if token in c.sent then c.(sent := c.sent[token := Cancelled]) else c
  }

  /** A timed-out wait that also reclaims the entry, so that a late response
      meets the "unknown token" path of the message callback, which drops it
      silently: the token leaves the table. */
  function ExpireReclaim(c: Client, token: string): (c': Client)
    ensures token !in c'.sent
    ensures c'.sent.Keys == c.sent.Keys - {token}
    ensures forall t :: t in c'.sent ==> c'.sent[t] == c.sent[t]
    ensures c' == c.(sent := c'.sent)
  {
    c.(sent := c.sent - {token})
  }

  const TimeoutMessage: string := "Timeout awaiting RPC response"

  /** The rest of a synchronous `call`, taken when its wait ends: the messages
      delivered before the deadline have already run through `OnMessage`. A
      future they resolved yields its result; otherwise the deadline came
      first, and the wait raises `TimeoutError` and, as written, leaves the
      cancelled future in the table. */
  function AwaitSync(c: Client, token: string): (r: (Client, Result<Wire, string>))
    ensures r.1.Success? <==> token in c.resolved
    ensures r.1.Success? ==> r.1.value == c.resolved[token] && r.0 == c
    ensures r.1.Failure? ==> r.1.error == TimeoutMessage && r.0 == Expire(c, token)
    ensures r.1.Failure? && token in c.sent ==> token in r.0.sent
  {
    if token in c.resolved then (c, Result.Success(c.resolved[token]))
    else (Expire(c, token), Failure(TimeoutMessage))
  }

  /** The synchronous wait with the corrected timeout, which removes the entry. */
  function AwaitSyncReclaiming(c: Client, token: string): (r: (Client, Result<Wire, string>))
    ensures r.1.Success? <==> token in c.resolved
    ensures r.1.Success? ==> r.1.value == c.resolved[token] && r.0 == c
    ensures r.1.Failure? ==> r.1.error == TimeoutMessage && r.0 == ExpireReclaim(c, token)
  {
    if token in c.resolved then (c, Result.Success(c.resolved[token]))
    else (ExpireReclaim(c, token), Failure(TimeoutMessage))
  }

  /** What the background response task of an asynchronous call logged. It
      never raises. */
  datatype TaskLog = CallbackRan | TimeoutLogged | ErrorLogged(error: string)

  /** `resp_task(handler, fut)`, taken when its wait ends: on a resolved future
      the handler's `cb` is awaited with the body; a timeout (which cancels the
      future, as in the synchronous case) and any exception of the callback
      are only logged. */
  function RespTask(c: Client, h: Handler, token: string): (r: (Client, TaskLog))
    ensures r.1 == CallbackRan <==> token in c.resolved && h.cb(c.resolved[token]).Success?
    ensures r.1 == TimeoutLogged <==> token !in c.resolved
    ensures r.1.ErrorLogged? ==> token in c.resolved && r.1.error == h.cb(c.resolved[token]).error
    ensures r.0 == if token in c.resolved then c else Expire(c, token)
  {
    if token !in c.resolved then (Expire(c, token), TimeoutLogged)
    else
      match h.cb(c.resolved[token])
      case Success(_) => (c, CallbackRan)
      case Failure(e) => (c, ErrorLogged(e))
  }

  /** A response for a call in flight resolves that call with the response's
      raw payload, removes its token and leaves every other entry alone; the
      synchronous wait then returns exactly that payload. */
  lemma ResponseResolvesCall(c: Client, schema: Schema, target: string, msg: Json, topic: Option<string>,
                             token: string, payload: Wire)
    requires Call(c, schema, target, msg, topic, token).Success?
    requires payload.Doc?
    ensures var c1 := Call(c, schema, target, msg, topic, token).value.0;
      var (c2, d) := OnMessage(c1, payload, Properties(None, Some(token)));
      && d == Resolved(token, payload, Codes.PubRecReasonCode.Success)
      && c2.sent == c.sent - {token}
      && (forall t :: t in c.sent && t != token ==> t in c2.sent && c2.sent[t] == c.sent[t])
      && AwaitSync(c2, token) == (c2, Result.Success(payload))
  {
    var c1 := Call(c, schema, target, msg, topic, token).value.0;
    assert c1.sent - {token} == c.sent - {token};
  }

  /** A call that no response reaches before its deadline times out, and the
      table still holds its token, now cancelled. */
  lemma UnansweredCallTimesOut(c: Client, schema: Schema, target: string, msg: Json, topic: Option<string>,
                               token: string)
    requires Call(c, schema, target, msg, topic, token).Success?
    ensures var c1 := Call(c, schema, target, msg, topic, token).value.0;
      var (c2, res) := AwaitSync(c1, token);
      && res == Failure(TimeoutMessage)
      && token in c2.sent && c2.sent[token] == Cancelled
  {
  }

  /** An asynchronous call whose response arrives in time has its handler's
      callback run on the response's payload; without a response the task
      logs the timeout. */
  lemma ResponseTaskRunsCallback(c: Client, schema: Schema, target: string, msg: Json, topic: Option<string>,
                                 token: string, payload: Wire)
    requires Call(c, schema, target, msg, topic, token).Success?
    requires payload.Doc?
    ensures var c1 := Call(c, schema, target, msg, topic, token).value.0;
      var h := c.handlers[target];
      var c2 := OnMessage(c1, payload, Properties(None, Some(token))).0;
      && (RespTask(c2, h, token).1 == CallbackRan <==> h.cb(payload).Success?)
      && (h.cb(payload).Failure? ==> RespTask(c2, h, token).1 == ErrorLogged(h.cb(payload).error))
      && RespTask(c1, h, token).1 == TimeoutLogged
  {
  }

  /** Resolution happens once: a second response with the same token is
      dropped without error and changes nothing. */
  lemma DuplicateResponseIgnored(c: Client, payload1: Wire, payload2: Wire, props: Properties)
    requires OnMessage(c, payload1, props).1.Resolved?
    requires payload2.Doc?
    ensures var c1 := OnMessage(c, payload1, props).0;
      OnMessage(c1, payload2, props) == (c1, Dropped)
  {
  }

  /** A response to a token nobody waits for is dropped silently, also from an empty table. */
  lemma UnknownTokenDropped(c: Client, payload: Wire, token: string)
    requires payload.Doc? && token !in c.sent
    ensures OnMessage(c, payload, Properties(None, Some(token))) == (c, Dropped)
  {
  }

  /** As written, a timed-out synchronous call leaks its entry, and a response
      that arrives after the timeout makes the message callback raise while
      resolving the cancelled future. */
  lemma LateResponseRaisesAsWritten(c: Client, schema: Schema, target: string, msg: Json, topic: Option<string>,
                                    token: string, payload: Wire)
    requires Call(c, schema, target, msg, topic, token).Success?
    requires payload.Doc?
    ensures var c1 := Call(c, schema, target, msg, topic, token).value.0;
      var (c2, res) := AwaitSync(c1, token);
      && res == Failure(TimeoutMessage)
      && token in c2.sent
      && OnMessage(c2, payload, Properties(None, Some(token))).1 == Raised(CancelledFutureError)
  {
  }

  /** With the reclaiming timeout, the timed-out token is gone and a late
      response for it is dropped silently by the unknown-token path. */
  lemma LateResponseDroppedWhenReclaimed(c: Client, schema: Schema, target: string, msg: Json, topic: Option<string>,
                                         token: string, payload: Wire)
    requires Call(c, schema, target, msg, topic, token).Success?
    requires payload.Doc?
    ensures var c1 := Call(c, schema, target, msg, topic, token).value.0;
      var (c2, res) := AwaitSyncReclaiming(c1, token);
      && res == Failure(TimeoutMessage)
      && token !in c2.sent
      && c2.sent == c.sent - {token}
      && OnMessage(c2, payload, Properties(None, Some(token))) == (c2, Dropped)
  {
    var c1 := Call(c, schema, target, msg, topic, token).value.0;
    assert c1.sent - {token} == c.sent - {token};
  }
}
