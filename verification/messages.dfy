/** What travels on the bus: JSON documents, the MQTT 5 properties the RPC
    layer reads (response topic and correlation data), the publications the
    RPC layer makes, and the status responses the server builds. */
module Messages {
  import opened Wrappers
  import opened Codes

  /** A decoded JSON value (numbers restricted to integers). */
  datatype Json =
    | JNull
    | JBool(b: bool)
    | JInt(i: int)
    | JStr(s: string)
    | JList(items: seq<Json>)
    | JDict(fields: map<string, Json>)

  /** Python can hash the decoded value (use it as a dict key or test it with
      `in` against dict keys): lists and dicts it cannot. */
  predicate Hashable(j: Json)
  {
    !j.JList? && !j.JDict?
  }

  /** Python's name for the type of an unhashable decoded value. */
  function TypeName(j: Json): string
  {
    match j
    case JList(_) => "list"
    case JDict(_) => "dict"
    case JNull => "NoneType"
    case JBool(_) => "bool"
    case JInt(_) => "int"
    case JStr(_) => "str"
  }

  /** A payload as it arrives: the text of a JSON document, or text that is not JSON. */
  datatype Wire = Doc(json: Json) | Malformed(text: string)

  /** The text of the exception `json.loads` raises on a malformed payload. */
  const JsonDecodeError: string := "Expecting value"

  /** The result of `json.loads(payload)` followed by the `isinstance(_, dict)` test. */
  datatype Parsed = NotJson | NotDict(value: Json) | Dict(fields: map<string, Json>)

  function Parse(w: Wire): (p: Parsed)
    ensures p.NotJson? <==> w.Malformed?
    ensures p.Dict? <==> w.Doc? && w.json.JDict?
    ensures p.Dict? ==> w == Doc(JDict(p.fields))
  {
    match w
    case Malformed(_) => NotJson
    case Doc(JDict(m)) => Dict(m)
    case Doc(j) => NotDict(j)
  }

  /** The MQTT 5 properties of an inbound message the RPC layer reads; the
      broker client hands each over as a list, of which the code uses element 0. */
  datatype Properties = Properties(responseTopic: Option<string>, correlationData: Option<string>)

  /** One call of the broker client's `publish`. */
  datatype Publish = Publish(
    topic: string,
    payload: Wire,
    correlationData: string,
    responseTopic: Option<string>,
    qos: nat,
    retain: bool)

  /** The properties a subscriber sees for a publication. This is the broker
      assumption the end-to-end lemmas rest on: an MQTT 5 broker forwards the
      Response Topic and Correlation Data of a PUBLISH unaltered (sections
      3.3.2.3.5 and 3.3.2.3.6 of the MQTT Version 5.0 standard). */
  function Delivered(p: Publish): (props: Properties)
    ensures props.correlationData == Some(p.correlationData)
    ensures props.responseTopic == p.responseTopic
  {
    Properties(p.responseTopic, Some(p.correlationData))
  }

  /** The serialised `Status(code, value=code.name, reason)` object: the
      numeric code, its name, and the reason when there is one. */
  function StatusJson(code: Code, reason: Option<string>): (j: Json)
    ensures j.JDict? && "code" in j.fields && "value" in j.fields
    ensures j.fields["code"] == JInt(code.Value()) && j.fields["value"] == JStr(code.Name())
    ensures "reason" in j.fields <==> reason.Some?
    ensures reason.Some? ==> j.fields["reason"] == JStr(reason.value)
    ensures j.fields.Keys <= {"code", "value", "reason"}
  {
    var base := map["code" := JInt(code.Value()), "value" := JStr(code.Name())];
    match reason
    case None => JDict(base)
    case Some(r) => JDict(base["reason" := JStr(r)])
  }

  /** The serialised `rpcResponse(status=…, reason=…)` the server builds itself:
      the reason, when given, appears both in the status and at top level. */
  function StatusResponse(code: Code, reason: Option<string>): (j: Json)
    ensures j.JDict? && "status" in j.fields && j.fields["status"] == StatusJson(code, reason)
    ensures "reason" in j.fields <==> reason.Some?
    ensures reason.Some? ==> j.fields["reason"] == JStr(reason.value)
    ensures j.fields.Keys <= {"status", "reason"}
  {
    match reason
    case None => JDict(map["status" := StatusJson(code, None)])
    case Some(r) => JDict(map["status" := StatusJson(code, reason), "reason" := JStr(r)])
  }

  /** Reads the status back out of a response document: the code (its value
      and name must agree) and the optional reason. */
  function ReadStatus(j: Json): (r: Option<(Code, Option<string>)>)
    ensures r.Some? ==> j.JDict? && "status" in j.fields
  {
    if !j.JDict? || "status" !in j.fields then None
    else
      var st := j.fields["status"];
      if !st.JDict? || "code" !in st.fields || "value" !in st.fields then None
      else
        match (st.fields["code"], st.fields["value"])
        case (JInt(n), JStr(name)) =>
          (match FromValue(n)
           case None => None
           case Some(c) =>
             if c.Name() != name then None
             else if "reason" !in st.fields then Some((c, None))
             else if st.fields["reason"].JStr? then Some((c, Some(st.fields["reason"].s)))
             else None)
        case _ => None
  }

  /** Reading a built response gives back its code and reason. */
  lemma StatusRoundTrip(code: Code, reason: Option<string>)
    ensures ReadStatus(StatusResponse(code, reason)) == Some((code, reason))
  {
    ValueRoundTrip(code, 0);
  }

  /** Distinct statuses are serialised to distinct documents. */
  lemma StatusResponseInjective(c1: Code, r1: Option<string>, c2: Code, r2: Option<string>)
    requires StatusResponse(c1, r1) == StatusResponse(c2, r2)
    ensures c1 == c2 && r1 == r2
  {
    StatusRoundTrip(c1, r1);
    StatusRoundTrip(c2, r2);
  }
}
