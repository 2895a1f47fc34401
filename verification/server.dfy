/** `RPCServer`: receives a request on its RPC topic, finds the handler for
    the request's `cmd`, builds the typed instance, runs the handler and
    publishes one correlated response; every failure after the metadata check
    becomes a `FAILED` response instead of an exception. */
module RpcServer {
  import opened Wrappers
  import opened Codes
  import opened Messages
  import opened Strings
  import opened Loader
  import Rpc

  /** What a handler returns (a coroutine's result once awaited), with the
      Python truthiness the server tests it by. */
  datatype Reply =
    | NoneReply                                 // `None`
    | DictReply(fields: map<string, Json>)      // a dict: published as is, falsy when empty
    | ModelReply(doc: Json, truthy: bool)       // a schema object: published as `doc`, its `serialize()`
    | OtherReply(truthy: bool, error: string)   // anything else: `serialize()` raises `error`
  {
    predicate Truthy()
    {
      match this
      case NoneReply => false
      case DictReply(f) => |f| > 0
      case ModelReply(_, t) => t
      case OtherReply(t, _) => t
    }
  }

  /** A server-side callback: the typed request instance to its reply, or the
      text of the exception it raises. */
  type Callback = Json -> Result<Reply, string>

  type Handler = Rpc.RpcHandler<Callback>

  /** The server's routing state: its handler table. */
  datatype Server = Server(handlers: map<string, Handler>)

  /** `set_handler(cmd, cb, classpath)`. */
  function SetHandler(s: Server, cmd: string, cb: Callback, classpath: string): (s': Server)
    ensures cmd in s'.handlers && s'.handlers[cmd] == Rpc.RpcHandler(cmd, cb, classpath)
    ensures s'.handlers[cmd].cb == cb
    ensures s'.handlers.Keys == s.handlers.Keys + {cmd}
    ensures forall k :: k in s.handlers && k != cmd ==> s'.handlers[k] == s.handlers[k]
    ensures Rpc.WellKeyed(s.handlers) ==> Rpc.WellKeyed(s'.handlers)
  {
    Server(Rpc.SetHandler(s.handlers, cmd, cb, classpath))
  }

  /** A publication is the response to a request with properties `props`: it
      goes to the request's response topic, echoes its correlation data
      unchanged, and uses QoS 1 without retain. */
  ghost predicate RespondsTo(p: Publish, props: Properties)
  {
    && props.responseTopic == Some(p.topic)
    && props.correlationData == Some(p.correlationData)
    && p.responseTopic.None?
    && p.qos == 1
    && !p.retain
  }

  /** `_send_response(res, properties)` once `res` is serialised. */
  function SendResponse(body: Wire, props: Properties): (p: Publish)
    requires props.responseTopic.Some? && props.correlationData.Some?
    ensures RespondsTo(p, props) && p.payload == body
  {
    Publish(props.responseTopic.value, body, props.correlationData.value, None, 1, false)
  }

  /** A `FAILED` status response with the given reason. */
  function FailedResponse(reason: string): Wire
  {
    Doc(StatusResponse(Failed, Some(reason)))
  }

  /** The response synthesised when a handler returns something falsy. */
  const OkResponse: Wire := Doc(StatusResponse(Ok, None))

  const DecodeErrorReason: string := "Message decode error"
  const FormatErrorReason: string := "Invalid RPC message format"

  /** Python's `str()` of a decoded value, as `f"{cmd}"` renders it: a string is
      itself, anything else is left to `show`. */
  function Str(show: Json -> string, j: Json): (r: string)
    ensures j.JStr? ==> r == j.s
    ensures !j.JStr? ==> r == show(j)
  {
    if j.JStr? then j.s else show(j)
  }

  /** The serialised form `_send_response` publishes for a truthy reply: a
      dict as it is, a schema object as its `serialize()`; an object without
      `serialize` raises. */
  function Serialise(r: Reply): (w: Result<Wire, string>)
    requires r.Truthy()
    ensures w.Success? <==> r.DictReply? || r.ModelReply?
    ensures r.DictReply? ==> w == Result.Success(Doc(JDict(r.fields)))
    ensures r.ModelReply? ==> w == Result.Success(Doc(r.doc))
    ensures r.OtherReply? ==> w == Failure(r.error)
  {
    match r
    case DictReply(f) => Result.Success(Doc(JDict(f)))
    case ModelReply(d, _) => Result.Success(Doc(d))
    case OtherReply(_, e) => Failure(e)
  }

  /** The result of the server's `try` block: the body to publish or the text
      of the exception, and whether the handler itself was called. */
  datatype Run = Run(body: Result<Wire, string>, invoked: bool)

  /** The typed request instance: the class path must split at its last dot
      and resolve to a class; `from_json` of the payload is used when it
      succeeds, and only when it raises is the decoded dict coerced attribute
      by attribute. The first step that raises supplies the error. */
  function Instance(schema: Schema, classpath: string, payload: Wire, msg: map<string, Json>): (r: Result<Json, string>)
    ensures RSplitOnce(classpath, '.').None? ==> r == Failure(UnpackError)
    ensures RSplitOnce(classpath, '.').Some? && schema.resolve(classpath).Failure? ==>
      r == Failure(schema.resolve(classpath).error)
    ensures r.Success? ==> RSplitOnce(classpath, '.').Some? && schema.resolve(classpath).Success?
    ensures RSplitOnce(classpath, '.').Some? && schema.resolve(classpath).Success? ==>
      var cls := schema.resolve(classpath).value;
      && (schema.fromJson(cls, payload).Success? ==> r == schema.fromJson(cls, payload))
      && (schema.fromJson(cls, payload).Failure? ==> r == CoerceRpc(schema.build, RSplitOnce(classpath, '.').value.0, cls, msg))
  {
    match RSplitOnce(classpath, '.')
    case None => Failure(UnpackError)
    case Some((pkg, _)) =>
      match schema.resolve(classpath)
      case Failure(e) => Failure(e)
      case Success(cls) =>
        match schema.fromJson(cls, payload)
        case Success(i) => Result.Success(i)
        case Failure(_) => CoerceRpc(schema.build, pkg, cls, msg)
  }

  /** The `try` block of `on_message`: build the instance, call the handler,
      replace a falsy reply by `OK`, serialise. The handler runs exactly when
      the instance could be built; every exception on the way becomes the
      block's error. */
  function RunHandler(schema: Schema, h: Handler, payload: Wire, msg: map<string, Json>): (run: Run)
    ensures run.invoked <==> Instance(schema, h.classpath, payload, msg).Success?
    ensures !run.invoked ==> run.body == Failure(Instance(schema, h.classpath, payload, msg).error)
    ensures run.invoked ==>
      var i := Instance(schema, h.classpath, payload, msg).value;
      && (h.cb(i).Failure? ==> run.body == Failure(h.cb(i).error))
      && (h.cb(i).Success? && !h.cb(i).value.Truthy() ==> run.body == Result.Success(OkResponse))
      && (h.cb(i).Success? && h.cb(i).value.Truthy() ==> run.body == Serialise(h.cb(i).value))
    ensures run.body.Success? ==> run.body.value.Doc?
  {
    match Instance(schema, h.classpath, payload, msg)
    case Failure(e) => Run(Failure(e), false)
    case Success(i) =>
      match Rpc.Handle(h, i)
      case Failure(e) => Run(Failure(e), true)
      case Success(reply) =>
        if !reply.Truthy() then Run(Result.Success(OkResponse), true)
        else Run(Serialise(reply), true)
  }

  /** The outcome of the message callback: the reason code it returns to the
      broker client with the response it published (if any) and whether a
      handler ran; or the exception that escapes it. */
  datatype Outcome =
    | Returned(code: PubRecReasonCode, published: Option<Publish>, invoked: bool)
    | Raised(error: string)

  /** The body of `on_message`. `hashGuard` selects between the code as written
      (`false`: an unhashable `cmd` makes the handler-table test raise) and the
      corrected dispatch (`true`: such a `cmd` is an undefined command). */
  function Dispatch(s: Server, schema: Schema, show: Json -> string, payload: Wire, props: Properties,
                    hashGuard: bool): (o: Outcome)
    ensures o.Raised? <==>
      && !hashGuard && props.responseTopic.Some? && props.correlationData.Some?
      && Parse(payload).Dict? && "cmd" in Parse(payload).fields && !Hashable(Parse(payload).fields["cmd"])
    ensures o.Returned? && o.published.Some? ==> RespondsTo(o.published.value, props)
    ensures o.Returned? && o.invoked ==>
      && Parse(payload).Dict? && "cmd" in Parse(payload).fields
      && Parse(payload).fields["cmd"].JStr? && Parse(payload).fields["cmd"].s in s.handlers
  {
    if props.responseTopic.None? || props.correlationData.None? then
      Returned(TopicNameInvalid, None, false)
    else
      match Parse(payload)
      case NotJson => Returned(PayloadFormatInvalid, Some(SendResponse(FailedResponse(DecodeErrorReason), props)), false)
      case NotDict(_) => Returned(PayloadFormatInvalid, Some(SendResponse(FailedResponse(DecodeErrorReason), props)), false)
      case Dict(msg) =>
        if "cmd" !in msg then
          Returned(PayloadFormatInvalid, Some(SendResponse(FailedResponse(FormatErrorReason), props)), false)
        else
          var cmd := msg["cmd"];
          if !hashGuard && !Hashable(cmd) then
            Raised("unhashable type: '" + TypeName(cmd) + "'")
          else if !(cmd.JStr? && cmd.s in s.handlers) then
            Returned(PayloadFormatInvalid,
                     Some(SendResponse(FailedResponse("cmd not defined: " + Str(show, cmd)), props)), false)
          else
            var run := RunHandler(schema, s.handlers[cmd.s], payload, msg);
            match run.body
            case Success(body) => Returned(PubRecReasonCode.Success, Some(SendResponse(body, props)), run.invoked)
            case Failure(e) =>
              Returned(ImplementationSpecificError,
                       Some(SendResponse(FailedResponse("Failed cmd " + cmd.s + ": " + e), props)), run.invoked)
  }

  /** `on_message` as written: a `cmd` that is a JSON list or object makes
      `cmd not in self._rpc_handlers.keys()` raise `TypeError` outside any `try`. */
  function OnMessageAsWritten(s: Server, schema: Schema, show: Json -> string, payload: Wire, props: Properties)
    : (o: Outcome)
    ensures o.Raised? <==>
      && props.responseTopic.Some? && props.correlationData.Some?
      && Parse(payload).Dict? && "cmd" in Parse(payload).fields && !Hashable(Parse(payload).fields["cmd"])
  {
    Dispatch(s, schema, show, payload, props, false)
  }

  /** `on_message` with the unhashable-`cmd` case answered like any undefined
      command. It never raises, publishes at most one response and exactly one
      whenever the metadata is present, always to the requester, and calls no
      handler unless the request names a registered command. */
  function OnMessage(s: Server, schema: Schema, show: Json -> string, payload: Wire, props: Properties)
    : (o: Outcome)
    ensures o.Returned?
    ensures o.published.None? <==> props.responseTopic.None? || props.correlationData.None?
    ensures o.published.None? ==> o == Returned(TopicNameInvalid, None, false)
    ensures o.published.Some? ==> RespondsTo(o.published.value, props) && o.published.value.payload.Doc?
    ensures o.invoked ==>
      && Parse(payload).Dict? && "cmd" in Parse(payload).fields
      && Parse(payload).fields["cmd"].JStr? && Parse(payload).fields["cmd"].s in s.handlers
    ensures o.code == PubRecReasonCode.Success ==> o.invoked
  {
    Dispatch(s, schema, show, payload, props, true)
  }

  /** The three early rejections: an undecodable or non-dict payload, a dict
      without `cmd`, and an unregistered `cmd` each publish one `FAILED` response
      with the reason text the source sends, return `PAYLOAD_FORMAT_INVALID` and call no handler. */
  lemma EarlyRejections(s: Server, schema: Schema, show: Json -> string, payload: Wire, props: Properties)
    requires props.responseTopic.Some? && props.correlationData.Some?
    ensures !Parse(payload).Dict? ==>
      OnMessage(s, schema, show, payload, props)
        == Returned(PayloadFormatInvalid, Some(SendResponse(FailedResponse(DecodeErrorReason), props)), false)
    ensures Parse(payload).Dict? && "cmd" !in Parse(payload).fields ==>
      OnMessage(s, schema, show, payload, props)
        == Returned(PayloadFormatInvalid, Some(SendResponse(FailedResponse(FormatErrorReason), props)), false)
    ensures Parse(payload).Dict? && "cmd" in Parse(payload).fields ==>
      var cmd := Parse(payload).fields["cmd"];
      !(cmd.JStr? && cmd.s in s.handlers) ==>
        OnMessage(s, schema, show, payload, props)
          == Returned(PayloadFormatInvalid,
                      Some(SendResponse(FailedResponse("cmd not defined: " + Str(show, cmd)), props)), false)
  {
  }

  /** Every reason code other than `SUCCESS` that comes with a response comes
      with a `FAILED` status carrying a reason. */
  lemma StatusMatchesReasonCode(s: Server, schema: Schema, show: Json -> string, payload: Wire, props: Properties)
    ensures var o := OnMessage(s, schema, show, payload, props);
      o.published.Some? && o.code != PubRecReasonCode.Success ==>
        exists reason :: ReadStatus(o.published.value.payload.json) == Some((Failed, Some(reason)))
  {
    var o := OnMessage(s, schema, show, payload, props);
    if o.published.Some? && o.code != PubRecReasonCode.Success {
      var body := o.published.value.payload;
      assert exists reason :: body == FailedResponse(reason);
      var reason :| body == FailedResponse(reason);
      StatusRoundTrip(Failed, Some(reason));
    }
  }

  /** A handler that returns something falsy gets the synthesised `OK` response
      and the call returns `SUCCESS`, whichever way the instance was built. */
  lemma FalsyReplyAnsweredOk(s: Server, schema: Schema, show: Json -> string, payload: Wire, props: Properties,
                             cmd: string, instance: Json)
    requires props.responseTopic.Some? && props.correlationData.Some?
    requires Parse(payload).Dict? && Get(Parse(payload).fields, "cmd") == Some(JStr(cmd)) && cmd in s.handlers
    requires Instance(schema, s.handlers[cmd].classpath, payload, Parse(payload).fields) == Result.Success(instance)
    requires s.handlers[cmd].cb(instance).Success? && !s.handlers[cmd].cb(instance).value.Truthy()
    ensures OnMessage(s, schema, show, payload, props) == Returned(PubRecReasonCode.Success, Some(SendResponse(OkResponse, props)), true)
    ensures ReadStatus(OkResponse.json) == Some((Ok, None))
  {
    StatusRoundTrip(Ok, None);
  }

  /** A handler whose truthy reply serialises has that reply published, with
      `SUCCESS`: a dict as it is, a schema object as its `serialize()`. */
  lemma TruthyReplyPublished(s: Server, schema: Schema, show: Json -> string, payload: Wire, props: Properties,
                             cmd: string, instance: Json)
    requires props.responseTopic.Some? && props.correlationData.Some?
    requires Parse(payload).Dict? && Get(Parse(payload).fields, "cmd") == Some(JStr(cmd)) && cmd in s.handlers
    requires Instance(schema, s.handlers[cmd].classpath, payload, Parse(payload).fields) == Result.Success(instance)
    requires s.handlers[cmd].cb(instance).Success? && s.handlers[cmd].cb(instance).value.Truthy()
    requires s.handlers[cmd].cb(instance).value.DictReply? || s.handlers[cmd].cb(instance).value.ModelReply?
    ensures var reply := s.handlers[cmd].cb(instance).value;
      var body := if reply.DictReply? then Doc(JDict(reply.fields)) else Doc(reply.doc);
      OnMessage(s, schema, show, payload, props) == Returned(PubRecReasonCode.Success, Some(SendResponse(body, props)), true)
  {
  }

  /** An exception anywhere in the `try` block (class path, class lookup,
      instance construction, handler, serialisation) is answered with a
      `FAILED` response whose reason names the command and the exception, and
      the server returns `IMPLEMENTATION_SPECIFIC_ERROR` instead of raising. */
  lemma HandlerFailureContained(s: Server, schema: Schema, show: Json -> string, payload: Wire, props: Properties,
                                cmd: string)
    requires props.responseTopic.Some? && props.correlationData.Some?
    requires Parse(payload).Dict? && Get(Parse(payload).fields, "cmd") == Some(JStr(cmd)) && cmd in s.handlers
    requires RunHandler(schema, s.handlers[cmd], payload, Parse(payload).fields).body.Failure?
    ensures var e := RunHandler(schema, s.handlers[cmd], payload, Parse(payload).fields).body.error;
      OnMessage(s, schema, show, payload, props) ==
        Returned(ImplementationSpecificError,
                 Some(SendResponse(FailedResponse("Failed cmd " + cmd + ": " + e), props)),
                 RunHandler(schema, s.handlers[cmd], payload, Parse(payload).fields).invoked)
  {
  }

  /** The two versions differ only on requests whose `cmd` is unhashable. */
  lemma AsWrittenAgreesOnHashableCmd(s: Server, schema: Schema, show: Json -> string, payload: Wire, props: Properties)
    requires !(Parse(payload).Dict? && "cmd" in Parse(payload).fields && !Hashable(Parse(payload).fields["cmd"]))
    ensures OnMessageAsWritten(s, schema, show, payload, props) == OnMessage(s, schema, show, payload, props)
  {
  }

  /** The request `{"cmd": []}` makes the server as written raise instead of
      answering, while the corrected dispatch answers it with `FAILED`. */
  lemma UnhashableCmdEscapes(s: Server, schema: Schema, show: Json -> string)
    ensures var props := Properties(Some("rpc-res/c"), Some("t"));
      var payload := Doc(JDict(map["cmd" := JList([])]));
      && OnMessageAsWritten(s, schema, show, payload, props) == Raised("unhashable type: 'list'")
      && OnMessage(s, schema, show, payload, props)
           == Returned(PayloadFormatInvalid,
                       Some(SendResponse(FailedResponse("cmd not defined: " + show(JList([]))), props)), false)
  {
  }
}
