/** `MsgServer`: plain topic subscriptions without RPC. A message goes to the
    handler registered under its exact topic, else to the one registered under
    its single-level wildcard key, else nowhere. */
module MsgServer {
  import opened Wrappers
  import opened Messages
  import opened Topics

  /** The `cb` argument of `subscribe`: absent (`None`), a callable (named by
      an id), or a non-callable value with its Python truthiness. */
  datatype CallbackArg = NoCallback | Callable(id: nat) | NotCallable(truthy: bool)
  {
    predicate Truthy()
    {
      match this
      case NoCallback => false
      case Callable(_) => true
      case NotCallable(t) => t
    }
  }

  /** `TopicHandler(topic, cb)`. */
  datatype TopicHandler = TopicHandler(topic: string, cb: CallbackArg)

  datatype Server = Server(handlers: map<string, TopicHandler>)

  /** What `subscribe` leaves in the table: every entry filed under its own
      topic, and no truthy non-callable callback. */
  ghost predicate Valid(s: Server)
  {
    forall t :: t in s.handlers ==> s.handlers[t].topic == t && !(s.handlers[t].cb.NotCallable? && s.handlers[t].cb.truthy)
  }

  /** The 29 characters Python's `str.isspace` accepts, listed one by one. */
  const Whitespace: set<char> := {
    '\t', '\n', '\U{0b}', '\U{0c}', '\r', '\U{1c}', '\U{1d}', '\U{1e}', '\U{1f}', ' ',
    '\U{85}', '\U{a0}', '\U{1680}',
    '\U{2000}', '\U{2001}', '\U{2002}', '\U{2003}', '\U{2004}', '\U{2005}', '\U{2006}',
    '\U{2007}', '\U{2008}', '\U{2009}', '\U{200a}',
    '\U{2028}', '\U{2029}', '\U{202f}', '\U{205f}', '\U{3000}'}

  /** `str.isspace` on one character, by code point ranges. */
  predicate IsSpace(c: char)
  {
    || c == ' ' || ('\t' <= c <= '\r') || ('\U{1c}' <= c <= '\U{1f}') || c == '\U{85}' || c == '\U{a0}'
    || c == '\U{1680}' || ('\U{2000}' <= c <= '\U{200a}') || c == '\U{2028}' || c == '\U{2029}'
    || c == '\U{202f}' || c == '\U{205f}' || c == '\U{3000}'
  }

  /** The ranges accept exactly the listed characters. */
  lemma IsSpaceListed(c: char)
    ensures IsSpace(c) <==> c in Whitespace
  {
  }

  /** `s.lstrip()`: the suffix left after dropping leading whitespace. */
  function LStrip(s: string): (r: string)
    ensures |r| <= |s| && r == s[|s| - |r|..]
    ensures forall i :: 0 <= i < |s| - |r| ==> IsSpace(s[i])
    ensures |r| > 0 ==> !IsSpace(r[0])
    decreases |s|
  {
    if |s| > 0 && IsSpace(s[0]) then LStrip(s[1..]) else s
  }

  /** `s.rstrip()`: the prefix left after dropping trailing whitespace. */
  function RStrip(s: string): (r: string)
    ensures |r| <= |s| && r == s[..|r|]
    ensures forall i :: |r| <= i < |s| ==> IsSpace(s[i])
    ensures |r| > 0 ==> !IsSpace(r[|r| - 1])
    decreases |s|
  {
    if |s| > 0 && IsSpace(s[|s| - 1]) then RStrip(s[..|s| - 1]) else s
  }

  /** `s.strip()`: whitespace removed from both ends. */
  function Strip(s: string): string
  {
    RStrip(LStrip(s))
  }

  /** `not topic.strip()`. */
  predicate Blank(s: string)
  {
    Strip(s) == ""
  }

  /** A topic is blank exactly when every character is whitespace (the empty
      topic included). */
  lemma BlankIffAllSpace(s: string)
    ensures Blank(s) <==> forall i :: 0 <= i < |s| ==> IsSpace(s[i])
  {
    var l := LStrip(s);
    assert |l| > 0 ==> l[0] == s[|s| - |l|];
  }

  const TopicError: string := "topic must be a non-empty string"
  const CallbackError: string := "The cb must be callable"

  /** `subscribe(topic, cb)`: a topic that is not a string, or only whitespace,
      and a truthy callback that cannot be called are rejected with
      `TypeError`; otherwise the entry for the topic is set, replacing any
      earlier one. The topic argument is any Python value, here a decoded JSON value. */
  function Subscribe(s: Server, topic: Json, cb: CallbackArg): (r: Result<Server, string>)
    ensures r.Failure? <==> !topic.JStr? || Blank(topic.s) || (cb.Truthy() && !cb.Callable?)
    ensures r.Failure? ==> r.error == (if !topic.JStr? || Blank(topic.s) then TopicError else CallbackError)
    ensures r.Success? ==>
      && r.value.handlers.Keys == s.handlers.Keys + {topic.s}
      && r.value.handlers[topic.s] == TopicHandler(topic.s, cb)
      && forall t :: t in s.handlers && t != topic.s ==> r.value.handlers[t] == s.handlers[t]
    ensures r.Success? && Valid(s) ==> Valid(r.value)
  {
    if !topic.JStr? || Blank(topic.s) then Failure(TopicError)
    else if cb.Truthy() && !cb.Callable? then Failure(CallbackError)
    else Success(Server(s.handlers[topic.s := TopicHandler(topic.s, cb)]))
  }

  /** What one message led to: the callback `id` ran with the decoded text of
      the payload; a handler without a callable consumed it silently; no
      handler matched (only a warning is logged); or an exception escaped. */
  datatype Delivery = Ran(id: nat, text: Wire) | Consumed(key: string) | UnknownTopic | Raised(error: string)

  const NotCallableError: string := "object is not callable"

  /** The handler entry `on_message` settles on: the exact topic first, else the
      wildcard key `topic_wildcard(topic)`, else none. */
  function Route(s: Server, topic: string): (key: Option<string>)
    ensures key.Some? ==> key.value in s.handlers
    ensures key.None? <==> topic !in s.handlers && TopicWildcard(topic) !in s.handlers
    ensures topic in s.handlers ==> key == Some(topic)
    ensures topic !in s.handlers && TopicWildcard(topic) in s.handlers ==> key == Some(TopicWildcard(topic))
  {
    if topic in s.handlers then Some(topic)
    else if TopicWildcard(topic) in s.handlers then Some(TopicWildcard(topic))
    else None
  }

  /** `on_message(client, topic, payload, …)`: the payload must be JSON (it is
      parsed for the debug log first); then the routed handler's callback, if
      truthy, is awaited with the payload decoded as text. At most one callback
      runs per message. */
  function OnMessage(s: Server, topic: string, payload: Wire): (d: Delivery)
    ensures payload.Malformed? ==> d.Raised?
    ensures d.Ran? ==> d.text == payload && Route(s, topic).Some? && s.handlers[Route(s, topic).value].cb == Callable(d.id)
    ensures d.UnknownTopic? <==> payload.Doc? && Route(s, topic).None?
    ensures d.Consumed? ==> Route(s, topic) == Some(d.key) && !s.handlers[d.key].cb.Truthy()
    ensures Valid(s) && payload.Doc? ==> !d.Raised?
  {
    if payload.Malformed? then Raised(JsonDecodeError)
    else
      match Route(s, topic)
      case None => UnknownTopic
      case Some(key) =>
        match s.handlers[key].cb
        case Callable(id) => Ran(id, payload)
        case NoCallback => Consumed(key)
        case NotCallable(truthy) => if truthy then Raised(NotCallableError) else Consumed(key)
  }

  /** An exact-topic handler takes precedence over the wildcard handler. */
  lemma ExactTopicWins(s: Server, topic: string, payload: Wire, id: nat)
    requires payload.Doc? && topic in s.handlers && s.handlers[topic].cb == Callable(id)
    ensures OnMessage(s, topic, payload) == Ran(id, payload)
  {
  }

  /** A message to `"sensors/42"` with only a `"sensors/+"` handler runs that
      handler exactly once, with the payload. */
  lemma WildcardDelivery(s: Server, topic: string, payload: Wire, id: nat)
    requires topic == "sensors/42" && payload.Doc? && topic !in s.handlers
    requires "sensors/+" in s.handlers && s.handlers["sensors/+"].cb == Callable(id)
    ensures OnMessage(s, topic, payload) == Ran(id, payload)
  {
    TopicWildcardExample(topic);
  }

  /** Subscribing with `None` and then receiving on that topic consumes the
      message without running anything. */
  lemma NullCallbackConsumes(s: Server, topic: string, payload: Wire)
    requires !Blank(topic) && payload.Doc?
    ensures Subscribe(s, JStr(topic), NoCallback).Success?
    ensures OnMessage(Subscribe(s, JStr(topic), NoCallback).value, topic, payload) == Consumed(topic)
  {
  }

  /** The quality of service `start` subscribes with. */
  const SubscribeQos: nat := 2

  /** `start()`: one subscription, at quality of service 2, for the topic of
      every registered handler. */
  function StartSubscriptions(s: Server): (subs: set<(string, nat)>)
    ensures forall t :: t in s.handlers ==> (s.handlers[t].topic, SubscribeQos) in subs
    ensures forall p :: p in subs ==> p.1 == SubscribeQos && exists t :: t in s.handlers && s.handlers[t].topic == p.0
  {
    set t | t in s.handlers :: (s.handlers[t].topic, SubscribeQos)
  }

  /** For a table built by `subscribe`, `start` subscribes to exactly the
      registered topics, so every topic whose handler can run is subscribed. */
  lemma StartSubscribesKeys(s: Server)
    requires Valid(s)
    ensures forall p: (string, nat) :: p in StartSubscriptions(s) <==> p.0 in s.handlers && p.1 == SubscribeQos
  {
    forall p: (string, nat) | p.0 in s.handlers && p.1 == SubscribeQos
      ensures p in StartSubscriptions(s)
    {
      assert s.handlers[p.0].topic == p.0;
    }
  }
}
