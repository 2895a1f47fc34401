/** One request-response exchange between an `RPCClient` and an `RPCServer`
    over the broker: the client publishes the request, the broker delivers it
    with its properties, the server answers, and the broker delivers the answer
    back to the client's response queue. */
module EndToEnd {
  import opened Wrappers
  import opened Messages
  import opened Loader
  import RpcClient
  import RpcServer
  import Codes

  /** Whatever the server makes of a request `call` published, it answers on
      the calling client's response queue, to which a started client stays
      subscribed across the call, under the call's token, and that answer resolves exactly the waiting call with
      the published body, removes its entry, and is what the synchronous wait
      then returns. The server is the corrected `RpcServer.OnMessage`;
      `CallIsAnsweredAsWritten` says when the server as written agrees. */
  lemma CallIsAnswered(c: RpcClient.Client, cschema: Schema, target: string, msg: Json, topic: Option<string>,
                       token: string, s: RpcServer.Server, sschema: Schema, show: Json -> string)
    requires RpcClient.Call(c, cschema, target, msg, topic, token).Success?
    ensures
      var (c1, req) := RpcClient.Call(c, cschema, target, msg, topic, token).value;
      var o := RpcServer.OnMessage(s, sschema, show, req.payload, Delivered(req));
      && o.Returned? && o.published.Some?
      && o.published.value.topic == RpcClient.ResponseQueue(c.cid)
      && (RpcClient.ResponseQueue(c.cid) in c.subscriptions ==> RpcClient.ResponseQueue(c.cid) in c1.subscriptions)
      && o.published.value.correlationData == token
      && var (c2, d) := RpcClient.OnMessage(c1, o.published.value.payload, Delivered(o.published.value));
         && d == RpcClient.Resolved(token, o.published.value.payload, Codes.PubRecReasonCode.Success)
         && c2.sent == c.sent - {token}
         && RpcClient.AwaitSync(c2, token) == (c2, Result.Success(o.published.value.payload))
  {
    var (c1, req) := RpcClient.Call(c, cschema, target, msg, topic, token).value;
    var o := RpcServer.OnMessage(s, sschema, show, req.payload, Delivered(req));
    assert RpcServer.RespondsTo(o.published.value, Delivered(req));
    assert Delivered(o.published.value) == Properties(None, Some(token));
    RpcClient.ResponseResolvesCall(c, cschema, target, msg, topic, token, o.published.value.payload);
  }

  /** The server as written gives the same answer to a request `call`
      published whenever the request's `cmd` is hashable, which it is unless
      the schema makes `cmd` a list or an object. */
  lemma CallIsAnsweredAsWritten(c: RpcClient.Client, cschema: Schema, target: string, msg: Json, topic: Option<string>,
                                token: string, s: RpcServer.Server, sschema: Schema, show: Json -> string)
    requires RpcClient.Call(c, cschema, target, msg, topic, token).Success?
    ensures
      var req := RpcClient.Call(c, cschema, target, msg, topic, token).value.1;
      var m := Parse(req.payload);
      !(m.Dict? && "cmd" in m.fields && !Hashable(m.fields["cmd"])) ==>
        RpcServer.OnMessageAsWritten(s, sschema, show, req.payload, Delivered(req))
          == RpcServer.OnMessage(s, sschema, show, req.payload, Delivered(req))
  {
    var req := RpcClient.Call(c, cschema, target, msg, topic, token).value.1;
    var m := Parse(req.payload);
    if !(m.Dict? && "cmd" in m.fields && !Hashable(m.fields["cmd"])) {
      RpcServer.AsWrittenAgreesOnHashableCmd(s, sschema, show, req.payload, Delivered(req));
    }
  }

  /** A retry of the same answer (the broker may deliver a message twice at
      quality of service 1) finds the call already gone and is dropped. */
  lemma RedeliveredAnswerDropped(c: RpcClient.Client, cschema: Schema, target: string, msg: Json, topic: Option<string>,
                                 token: string, s: RpcServer.Server, sschema: Schema, show: Json -> string)
    requires RpcClient.Call(c, cschema, target, msg, topic, token).Success?
    ensures
      var (c1, req) := RpcClient.Call(c, cschema, target, msg, topic, token).value;
      var o := RpcServer.OnMessage(s, sschema, show, req.payload, Delivered(req));
      o.published.Some? &&
      var (c2, _) := RpcClient.OnMessage(c1, o.published.value.payload, Delivered(o.published.value));
      RpcClient.OnMessage(c2, o.published.value.payload, Delivered(o.published.value)) == (c2, RpcClient.Dropped)
  {
    CallIsAnswered(c, cschema, target, msg, topic, token, s, sschema, show);
  }
}
