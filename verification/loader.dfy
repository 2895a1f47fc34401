/** `schemaLoader.coerceRPC`: rebuilds a typed RPC object from a raw message
    dict when direct construction fails, by trying, for every attribute whose
    declared type is a list of candidate classes, each candidate in declared
    order until one constructs and validates. The schema machinery itself
    (class lookup, construction, validation) is an abstract `Schema`. */
module Loader {
  import opened Wrappers
  import opened Messages
  import opened Strings

  /** The `type` entry of an attribute's schema info: one type, or a list of
      candidate classes (a "one of" union). */
  datatype TypeInfo = Plain | OneOf(candidates: seq<string>)

  datatype Attr = Attr(name: string, typ: TypeInfo)

  /** A generated schema class: its attributes in `obj.keys()` order. */
  datatype ClassSpec = ClassSpec(attrs: seq<Attr>)

  /** Trying one candidate: the class is not in the module (the lookup raises
      outside the `try`), the construction or validation raises, or it succeeds
      with an object whose serialised form is `value`. */
  datatype Trial = Missing(error: string) | Rejected(error: string) | Accepted(value: Json)

  /** Construct-and-validate: (module name, candidate class title, `msg.get(attr)`) to trial. */
  type Builder = (string, string, Option<Json>) -> Trial

  /** The schema machinery the RPC layer calls into, as data:
      `resolve` walks a dotted class path to its class (importlib and getattr),
      `fromJson` is `Class.from_json(payload)`, `construct` is `Class(**fields)`,
      `build` tries one candidate class, and `serialize` is `obj.serialize()`,
      which validates the object and raises when it is incomplete or invalid.
      Objects are represented by their attributes as JSON. */
  datatype Schema = Schema(
    resolve: string -> Result<ClassSpec, string>,
    fromJson: (ClassSpec, Wire) -> Result<Json, string>,
    construct: (ClassSpec, map<string, Json>) -> Result<Json, string>,
    build: Builder,
    serialize: Json -> Result<Json, string>)

  /** The first `k` candidates were all rejected. */
  predicate RejectedBefore(build: Builder, pkg: string, cands: seq<string>, arg: Option<Json>, k: nat)
    requires k <= |cands|
  {
    forall j :: 0 <= j < k ==> build(pkg, cands[j], arg).Rejected?
  }

  /** The errors of the first `k` candidates, in trial order. */
  function ErrorsOf(build: Builder, pkg: string, cands: seq<string>, arg: Option<Json>, k: nat): (errs: seq<string>)
    requires k <= |cands| && RejectedBefore(build, pkg, cands, arg, k)
    ensures |errs| == k
    ensures forall j :: 0 <= j < k ==> errs[j] == build(pkg, cands[j], arg).error
  {
    seq(k, j requires 0 <= j < k && build(pkg, cands[j], arg).Rejected? => build(pkg, cands[j], arg).error)
  }

  /** The outcome of the candidate loop for one attribute. */
  datatype AttrTrial =
    | Picked(index: nat, value: Json, errs: seq<string>)
    | Exhausted(errs: seq<string>)
    | Aborted(index: nat, error: string)

  /** A rejected first candidate followed by `k` rejected ones from the rest
      makes `k + 1` rejections, whose log starts with the first error. */
  lemma RejectedCons(build: Builder, pkg: string, cands: seq<string>, arg: Option<Json>, k: nat)
    requires 0 < |cands| && k < |cands| && build(pkg, cands[0], arg).Rejected?
    requires RejectedBefore(build, pkg, cands[1..], arg, k)
    ensures RejectedBefore(build, pkg, cands, arg, k + 1)
    ensures ErrorsOf(build, pkg, cands, arg, k + 1)
         == [build(pkg, cands[0], arg).error] + ErrorsOf(build, pkg, cands[1..], arg, k)
  {
    assert forall j :: 0 < j <= k ==> cands[j] == cands[1..][j - 1];
  }

  /** The inner loop: candidates tried in declared order; the first accepted
      one is picked and the loop stops; each rejection's error is kept. */
  function TryCandidates(build: Builder, pkg: string, cands: seq<string>, arg: Option<Json>): (r: AttrTrial)
    ensures r.Picked? ==>
      && r.index < |cands|
      && build(pkg, cands[r.index], arg) == Accepted(r.value)
      && RejectedBefore(build, pkg, cands, arg, r.index)
      && r.errs == ErrorsOf(build, pkg, cands, arg, r.index)
    ensures r.Exhausted? ==>
      && RejectedBefore(build, pkg, cands, arg, |cands|)
      && r.errs == ErrorsOf(build, pkg, cands, arg, |cands|)
    ensures r.Aborted? ==>
      && r.index < |cands|
      && build(pkg, cands[r.index], arg) == Missing(r.error)
      && RejectedBefore(build, pkg, cands, arg, r.index)
    decreases |cands|
  {
    if |cands| == 0 then Exhausted([])
    else
      match build(pkg, cands[0], arg)
      case Missing(e) => Aborted(0, e)
      case Accepted(v) => Picked(0, v, [])
      case Rejected(e) =>
        var tail := cands[1..];
        match TryCandidates(build, pkg, tail, arg)
        case Picked(i, v, es) =>
          RejectedCons(build, pkg, cands, arg, i);
          Picked(i + 1, v, [e] + es)
        case Exhausted(es) =>
          RejectedCons(build, pkg, cands, arg, |tail|);
          Exhausted([e] + es)
        case Aborted(i, x) =>
          RejectedCons(build, pkg, cands, arg, i);
          Aborted(i + 1, x)
  }

  /** First match wins: when candidate `k` is the first one accepted, it is the
      one picked, and the errors are exactly those of the candidates before it. */
  lemma FirstMatchWins(build: Builder, pkg: string, cands: seq<string>, arg: Option<Json>, k: nat, v: Json)
    requires k < |cands| && RejectedBefore(build, pkg, cands, arg, k)
    requires build(pkg, cands[k], arg) == Accepted(v)
    ensures TryCandidates(build, pkg, cands, arg) == Picked(k, v, ErrorsOf(build, pkg, cands, arg, k))
  {
  }

  /** No later candidate is tried: once the loop stops (a pick or a missing
      class), appending candidates does not change the outcome. */
  lemma {:induction false} LaterCandidatesUntried(build: Builder, pkg: string, cands: seq<string>, more: seq<string>, arg: Option<Json>)
    requires !TryCandidates(build, pkg, cands, arg).Exhausted?
    ensures TryCandidates(build, pkg, cands + more, arg) == TryCandidates(build, pkg, cands, arg)
    decreases |cands|
  {
    assert |cands| > 0;
    assert (cands + more)[0] == cands[0];
    if build(pkg, cands[0], arg).Rejected? {
      assert (cands + more)[1..] == cands[1..] + more;
      LaterCandidatesUntried(build, pkg, cands[1..], more, arg);
    }
  }

  /** The outcome of the attribute loop. `errs` is the one error list of the
      whole call, shared by all attributes. */
  datatype Coercion =
    | Coerced(fields: map<string, Json>, errs: seq<string>)
    | NoMatch(attr: string, errs: seq<string>)
    | ClassMissing(error: string)

  /** The names of the union-typed attributes. */
  function UnionNames(attrs: seq<Attr>): (names: set<string>)
    ensures forall i :: 0 <= i < |attrs| && attrs[i].typ.OneOf? ==> attrs[i].name in names
    ensures forall n :: n in names ==> exists i :: 0 <= i < |attrs| && attrs[i].typ.OneOf? && attrs[i].name == n
  {
    set i | 0 <= i < |attrs| && attrs[i].typ.OneOf? :: attrs[i].name
  }

  /** The union names of a list are those of its tail and its head's. */
  lemma UnionNamesCons(attrs: seq<Attr>)
    requires |attrs| > 0
    ensures UnionNames(attrs) == UnionNames(attrs[1..]) + (if attrs[0].typ.OneOf? then {attrs[0].name} else {})
  {
    assert forall i :: 0 < i < |attrs| ==> attrs[i] == attrs[1..][i - 1];
  }

  /** The outer loop over `obj.keys()`: plain attributes are skipped, each union
      attribute gets its first accepted candidate, and an attribute no
      candidate fits stops the loop with all errors logged so far. */
  function CoerceAttrs(build: Builder, pkg: string, attrs: seq<Attr>, msg: map<string, Json>,
                       fields: map<string, Json>, errs: seq<string>): (r: Coercion)
    ensures r.Coerced? || r.NoMatch? ==> errs <= r.errs
    ensures r.Coerced? ==> r.fields.Keys == fields.Keys + UnionNames(attrs)
    ensures r.Coerced? ==> forall k :: k in fields && k !in UnionNames(attrs) ==> r.fields[k] == fields[k]
    ensures r.NoMatch? ==> exists i :: 0 <= i < |attrs| && attrs[i].name == r.attr && attrs[i].typ.OneOf?
    decreases |attrs|
  {
    if |attrs| == 0 then Coerced(fields, errs)
    else
      var a := attrs[0];
      UnionNamesCons(attrs);
      match a.typ
      case Plain => CoerceAttrs(build, pkg, attrs[1..], msg, fields, errs)
      case OneOf(cands) =>
        match TryCandidates(build, pkg, cands, Get(msg, a.name))
        case Aborted(_, e) => ClassMissing(e)
        case Exhausted(es) => NoMatch(a.name, errs + es)
        case Picked(_, v, es) =>
          var r := CoerceAttrs(build, pkg, attrs[1..], msg, fields[a.name := v], errs + es);
          assert r.NoMatch? ==> exists i :: 0 <= i < |attrs| && attrs[i].name == r.attr && attrs[i].typ.OneOf? by {
            if r.NoMatch? {
              var i :| 0 <= i < |attrs[1..]| && attrs[1..][i].name == r.attr && attrs[1..][i].typ.OneOf?;
              assert attrs[i + 1] == attrs[1..][i];
            }
          }
          r
  }

  /** Attribute lists run one after the other: coercing `a1 + a2` is coercing
      `a1` and then, if that succeeded, `a2` with the fields and the error log
      `a1` left behind. */
  lemma {:induction false} CoerceAttrsSequential(build: Builder, pkg: string, a1: seq<Attr>, a2: seq<Attr>,
                                                 msg: map<string, Json>, fields: map<string, Json>, errs: seq<string>)
    ensures CoerceAttrs(build, pkg, a1 + a2, msg, fields, errs) ==
      match CoerceAttrs(build, pkg, a1, msg, fields, errs)
      case Coerced(f1, e1) => CoerceAttrs(build, pkg, a2, msg, f1, e1)
      case other => other
    decreases |a1|
  {
    if |a1| == 0 {
      assert a1 + a2 == a2;
    } else {
      assert (a1 + a2)[0] == a1[0];
      assert (a1 + a2)[1..] == a1[1..] + a2;
      var a := a1[0];
      match a.typ
      case Plain =>
        CoerceAttrsSequential(build, pkg, a1[1..], a2, msg, fields, errs);
      case OneOf(cands) =>
        match TryCandidates(build, pkg, cands, Get(msg, a.name))
        case Aborted(_, e) =>
        case Exhausted(es) =>
        case Picked(_, v, es) =>
          CoerceAttrsSequential(build, pkg, a1[1..], a2, msg, fields[a.name := v], errs + es);
    }
  }

  /** The error log is shared across attributes: when the attributes before a
      union attribute coerce with log `e1` and none of its candidates fits, the
      aggregate lists `e1` first, then every candidate's error in order. */
  lemma SharedErrorLog(build: Builder, pkg: string, before: seq<Attr>, name: string, cands: seq<string>,
                       after: seq<Attr>, msg: map<string, Json>, fields: map<string, Json>,
                       f1: map<string, Json>, e1: seq<string>)
    requires CoerceAttrs(build, pkg, before, msg, fields, []) == Coerced(f1, e1)
    requires TryCandidates(build, pkg, cands, Get(msg, name)).Exhausted?
    ensures RejectedBefore(build, pkg, cands, Get(msg, name), |cands|)
    ensures CoerceAttrs(build, pkg, before + [Attr(name, OneOf(cands))] + after, msg, fields, [])
         == NoMatch(name, e1 + ErrorsOf(build, pkg, cands, Get(msg, name), |cands|))
  {
    var x := [Attr(name, OneOf(cands))];
    assert before + x + after == before + (x + after);
    CoerceAttrsSequential(build, pkg, before, x + after, msg, fields, []);
    assert (x + after)[0] == Attr(name, OneOf(cands));
  }

  const CoercionErrorHeader: string := "Could not coerce message to known RPC class, logged errors:"

  /** The text of the exception raised when no candidate fits: the header, then
      every logged error, one per line. */
  function AggregateError(errs: seq<string>): (e: string)
    ensures CoercionErrorHeader + "\n" <= e
    ensures e[|CoercionErrorHeader| + 1..] == Join(errs, '\n')
  {
    CoercionErrorHeader + "\n" + Join(errs, '\n')
  }

  /** No error is discarded: after the header line, splitting the aggregate
      message into lines gives the logged errors in order (for single-line errors). */
  lemma AggregateErrorLines(errs: seq<string>)
    requires |errs| >= 1
    requires forall i :: 0 <= i < |errs| ==> '\n' !in errs[i]
    ensures AggregateError(errs)[..|CoercionErrorHeader| + 1] == CoercionErrorHeader + "\n"
    ensures Split(AggregateError(errs)[|CoercionErrorHeader| + 1..], '\n') == errs
  {
    SplitJoin(errs, '\n');
    var msg := AggregateError(errs);
    assert msg == (CoercionErrorHeader + "\n") + Join(errs, '\n');
    assert msg[|CoercionErrorHeader| + 1..] == Join(errs, '\n');
  }

  /** The fields the new object gets from the message before the loop:
      `obj.cmd = msg.get("cmd")` and `obj.agentId = msg.get("agentId")`
      (setting `None` leaves a field unset). */
  function Header(msg: map<string, Json>): (h: map<string, Json>)
    ensures h.Keys == msg.Keys * {"cmd", "agentId"}
    ensures forall k :: k in h ==> h[k] == msg[k]
  {
    map k | k in msg && k in {"cmd", "agentId"} :: msg[k]
  }

  /** `schemaLoader.coerceRPC(module_name, cls, msg)`: the coerced object, or the
      text of the exception it raises. */
  function CoerceRpc(build: Builder, pkg: string, cls: ClassSpec, msg: map<string, Json>): (r: Result<Json, string>)
    ensures r.Success? ==> r.value.JDict?
    ensures r.Success? ==> r.value.fields.Keys == Header(msg).Keys + UnionNames(cls.attrs)
    ensures r.Success? ==>
              forall k :: (k in {"cmd", "agentId"} && k in msg && k !in UnionNames(cls.attrs)) ==> r.value.fields[k] == msg[k]
    ensures CoerceAttrs(build, pkg, cls.attrs, msg, Header(msg), []).NoMatch? ==>
              r == Failure(AggregateError(CoerceAttrs(build, pkg, cls.attrs, msg, Header(msg), []).errs))
  {
    match CoerceAttrs(build, pkg, cls.attrs, msg, Header(msg), [])
    case Coerced(f, _) => Success(JDict(f))
    case NoMatch(_, errs) => Failure(AggregateError(errs))
    case ClassMissing(e) => Failure(e)
  }

  /** The union attribute `a` holds, in `fields`, the value of its first
      accepted candidate. */
  predicate HoldsFirstMatch(build: Builder, pkg: string, a: Attr, msg: map<string, Json>, fields: map<string, Json>)
    requires a.typ.OneOf?
  {
    var t := TryCandidates(build, pkg, a.typ.candidates, Get(msg, a.name));
    t.Picked? && a.name in fields && fields[a.name] == t.value
  }

  /** The first attribute of a coerced list holds its first match, when no
      later union attribute shares its name. */
  lemma CoercedHead(build: Builder, pkg: string, attrs: seq<Attr>,
                    msg: map<string, Json>, fields: map<string, Json>, errs: seq<string>)
    requires |attrs| > 0 && attrs[0].typ.OneOf? && attrs[0].name !in UnionNames(attrs[1..])
    requires CoerceAttrs(build, pkg, attrs, msg, fields, errs).Coerced?
    ensures HoldsFirstMatch(build, pkg, attrs[0], msg, CoerceAttrs(build, pkg, attrs, msg, fields, errs).fields)
  {
    var a := attrs[0];
    var t := TryCandidates(build, pkg, a.typ.candidates, Get(msg, a.name));
    assert CoerceAttrs(build, pkg, attrs, msg, fields, errs)
        == CoerceAttrs(build, pkg, attrs[1..], msg, fields[a.name := t.value], errs + t.errs);
  }

  /** A coerced list was coerced up to position `i`, and from there on with
      the fields and log the prefix left behind. */
  lemma CoercedSplit(build: Builder, pkg: string, attrs: seq<Attr>, i: nat,
                     msg: map<string, Json>, fields: map<string, Json>, errs: seq<string>)
    requires i <= |attrs| && CoerceAttrs(build, pkg, attrs, msg, fields, errs).Coerced?
    ensures CoerceAttrs(build, pkg, attrs[..i], msg, fields, errs).Coerced?
    ensures CoerceAttrs(build, pkg, attrs, msg, fields, errs) ==
      CoerceAttrs(build, pkg, attrs[i..], msg, CoerceAttrs(build, pkg, attrs[..i], msg, fields, errs).fields,
                  CoerceAttrs(build, pkg, attrs[..i], msg, fields, errs).errs)
  {
    assert attrs[..i] + attrs[i..] == attrs;
    CoerceAttrsSequential(build, pkg, attrs[..i], attrs[i..], msg, fields, errs);
  }

  /** The union attribute at position `i` holds its first match once the loop
      has run from `i` on, since no later attribute has its name. */
  lemma CoercedFrom(build: Builder, pkg: string, attrs: seq<Attr>, i: nat,
                    msg: map<string, Json>, fields: map<string, Json>, errs: seq<string>)
    requires i < |attrs| && attrs[i].typ.OneOf?
    requires forall i, j :: 0 <= i < j < |attrs| ==> attrs[i].name != attrs[j].name
    requires CoerceAttrs(build, pkg, attrs[i..], msg, fields, errs).Coerced?
    ensures HoldsFirstMatch(build, pkg, attrs[i], msg, CoerceAttrs(build, pkg, attrs[i..], msg, fields, errs).fields)
  {
    var tail := attrs[i..];
    assert tail[0] == attrs[i] && attrs[i].name !in UnionNames(tail[1..]) by {
      assert forall k :: 0 <= k < |tail[1..]| ==> tail[1..][k] == attrs[i + 1 + k];
    }
    CoercedHead(build, pkg, tail, msg, fields, errs);
  }

  /** The union attribute at position `i` of a coerced list holds its first
      match (attribute names being distinct): the loop reaches it with some
      fields and log, and no later attribute overwrites it. */
  lemma CoercedAt(build: Builder, pkg: string, attrs: seq<Attr>, i: nat,
                  msg: map<string, Json>, fields: map<string, Json>, errs: seq<string>)
    requires i < |attrs| && attrs[i].typ.OneOf?
    requires forall i, j :: 0 <= i < j < |attrs| ==> attrs[i].name != attrs[j].name
    requires CoerceAttrs(build, pkg, attrs, msg, fields, errs).Coerced?
    ensures HoldsFirstMatch(build, pkg, attrs[i], msg, CoerceAttrs(build, pkg, attrs, msg, fields, errs).fields)
  {
    CoercedSplit(build, pkg, attrs, i, msg, fields, errs);
    var r0 := CoerceAttrs(build, pkg, attrs[..i], msg, fields, errs);
    CoercedFrom(build, pkg, attrs, i, msg, r0.fields, r0.errs);
  }

  /** Every union attribute of a coerced object holds the value of its first
      accepted candidate (attribute names being distinct, as `obj.keys()` are). */
  lemma CoercedValuesAreFirstMatches(build: Builder, pkg: string, attrs: seq<Attr>,
                                     msg: map<string, Json>, fields: map<string, Json>, errs: seq<string>)
    requires forall i, j :: 0 <= i < j < |attrs| ==> attrs[i].name != attrs[j].name
    requires CoerceAttrs(build, pkg, attrs, msg, fields, errs).Coerced?
    ensures forall i :: 0 <= i < |attrs| && attrs[i].typ.OneOf? ==>
      HoldsFirstMatch(build, pkg, attrs[i], msg, CoerceAttrs(build, pkg, attrs, msg, fields, errs).fields)
  {
    forall i | 0 <= i < |attrs| && attrs[i].typ.OneOf?
      ensures HoldsFirstMatch(build, pkg, attrs[i], msg, CoerceAttrs(build, pkg, attrs, msg, fields, errs).fields)
    {
      CoercedAt(build, pkg, attrs, i, msg, fields, errs);
    }
  }

  /** One step of the attribute loop, starting at attribute `i`. */
  lemma CoerceAttrsUnfold(build: Builder, pkg: string, attrs: seq<Attr>, i: nat,
                          msg: map<string, Json>, fields: map<string, Json>, errs: seq<string>)
    requires i < |attrs|
    ensures CoerceAttrs(build, pkg, attrs[i..], msg, fields, errs) ==
      match attrs[i].typ
      case Plain => CoerceAttrs(build, pkg, attrs[i + 1..], msg, fields, errs)
      case OneOf(cands) =>
        match TryCandidates(build, pkg, cands, Get(msg, attrs[i].name))
        case Aborted(_, e) => ClassMissing(e)
        case Exhausted(es) => NoMatch(attrs[i].name, errs + es)
        case Picked(_, v, es) => CoerceAttrs(build, pkg, attrs[i + 1..], msg, fields[attrs[i].name := v], errs + es)
  {
    assert attrs[i..][0] == attrs[i] && attrs[i..][1..] == attrs[i + 1..];
  }

  /** The inner loop as written: walk the candidates in order, logging each
      rejection, and leave at the first accepted or missing class. It computes
      exactly the recursive definition. */
  method TryCandidatesLoop(build: Builder, pkg: string, cands: seq<string>, arg: Option<Json>) returns (r: AttrTrial)
    ensures r == TryCandidates(build, pkg, cands, arg)
  {
    var errs: seq<string> := [];
    var k := 0;
    while k < |cands|
      invariant 0 <= k <= |cands|
      invariant RejectedBefore(build, pkg, cands, arg, k)
      invariant errs == ErrorsOf(build, pkg, cands, arg, k)
    {
      match build(pkg, cands[k], arg)
      case Missing(e) =>
        TryCandidatesStopsAt(build, pkg, cands, arg, k);
        return Aborted(k, e);
      case Accepted(v) =>
        TryCandidatesStopsAt(build, pkg, cands, arg, k);
        return Picked(k, v, errs);
      case Rejected(e) =>
        errs := errs + [e];
        k := k + 1;
    }
    return Exhausted(errs);
  }

  /** The first candidate that is not rejected decides the outcome. */
  lemma TryCandidatesStopsAt(build: Builder, pkg: string, cands: seq<string>, arg: Option<Json>, k: nat)
    requires k < |cands| && RejectedBefore(build, pkg, cands, arg, k) && !build(pkg, cands[k], arg).Rejected?
    ensures TryCandidates(build, pkg, cands, arg) ==
      match build(pkg, cands[k], arg)
      case Missing(e) => Aborted(k, e)
      case Accepted(v) => Picked(k, v, ErrorsOf(build, pkg, cands, arg, k))
      case Rejected(_) => Exhausted([])
  {
  }

  /** `coerceRPC` as written: copy `cmd` and `agentId`, then for each attribute
      in order run the candidate loop on union attributes, stopping at the
      first attribute no candidate fits. It computes exactly `CoerceRpc`. */
  method CoerceRpcLoop(build: Builder, pkg: string, cls: ClassSpec, msg: map<string, Json>) returns (r: Result<Json, string>)
    ensures r == CoerceRpc(build, pkg, cls, msg)
  {
    var fields := Header(msg);
    var errs: seq<string> := [];
    var i := 0;
    while i < |cls.attrs|
      invariant 0 <= i <= |cls.attrs|
      invariant CoerceAttrs(build, pkg, cls.attrs, msg, Header(msg), []) == CoerceAttrs(build, pkg, cls.attrs[i..], msg, fields, errs)
    {
      var a := cls.attrs[i];
      CoerceAttrsUnfold(build, pkg, cls.attrs, i, msg, fields, errs);
      if a.typ.OneOf? {
        var t := TryCandidatesLoop(build, pkg, a.typ.candidates, Get(msg, a.name));
        match t
        case Aborted(_, e) =>
          return Failure(e);
        case Exhausted(es) =>
          return Failure(AggregateError(errs + es));
        case Picked(_, v, es) =>
          fields := fields[a.name := v];
          errs := errs + es;
      }
      i := i + 1;
    }
    return Success(JDict(fields));
  }
}
