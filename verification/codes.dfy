/** The status-code enumeration carried in every RPC response (`Code`, an
    IntEnum) and the MQTT 5 PUBREC reason codes the server's message callback
    returns to the broker client. */
module Codes {
  import opened Wrappers

  /** The eight RPC status codes, in value order. */
  datatype Code = Ok | Cancelled | Unknown | InvalidArgument | NotFound | AlreadyExists | Failed | Queued
  {
    /** The integer value of the member. */
    function Value(): (n: nat)
      ensures n < 8
    {
      match this
      case Ok => 0
      case Cancelled => 1
      case Unknown => 2
      case InvalidArgument => 3
      case NotFound => 4
      case AlreadyExists => 5
      case Failed => 6
      case Queued => 7
    }

    /** The member's name, `Code(n).name`. */
    function Name(): string
    {
      match this
      case Ok => "OK"
      case Cancelled => "CANCELLED"
      case Unknown => "UNKNOWN"
      case InvalidArgument => "INVALID_ARGUMENT"
      case NotFound => "NOT_FOUND"
      case AlreadyExists => "ALREADY_EXISTS"
      case Failed => "FAILED"
      case Queued => "QUEUED"
    }
  }

  /** `Code(n)`: the member with value `n`; Python raises `ValueError` otherwise. */
  function FromValue(n: int): (r: Option<Code>)
    ensures r.Some? <==> 0 <= n < 8
    ensures r.Some? ==> r.value.Value() == n
  {
    if n == 0 then Some(Ok)
    else if n == 1 then Some(Cancelled)
    else if n == 2 then Some(Unknown)
    else if n == 3 then Some(InvalidArgument)
    else if n == 4 then Some(NotFound)
    else if n == 5 then Some(AlreadyExists)
    else if n == 6 then Some(Failed)
    else if n == 7 then Some(Queued)
    else None
  }

  /** `Code[name]`: the member with that name; Python raises `KeyError` otherwise. */
  function FromName(s: string): (r: Option<Code>)
    ensures r.Some? ==> r.value.Name() == s
  {
    if s == "OK" then Some(Ok)
    else if s == "CANCELLED" then Some(Cancelled)
    else if s == "UNKNOWN" then Some(Unknown)
    else if s == "INVALID_ARGUMENT" then Some(InvalidArgument)
    else if s == "NOT_FOUND" then Some(NotFound)
    else if s == "ALREADY_EXISTS" then Some(AlreadyExists)
    else if s == "FAILED" then Some(Failed)
    else if s == "QUEUED" then Some(Queued)
    else None
  }

  /** The members in declaration order. */
  const AllCodes: seq<Code> := [Ok, Cancelled, Unknown, InvalidArgument, NotFound, AlreadyExists, Failed, Queued]

  /** `OK` is 0 and `FAILED` is 6, the two values the server sends. */
  lemma ServerCodes()
    ensures Ok.Value() == 0 && Ok.Name() == "OK"
    ensures Failed.Value() == 6 && Failed.Name() == "FAILED"
  {
  }

  /** Eight members, listed in value order, with the distinct values 0 through 7. */
  lemma CodesAreZeroToSeven()
    ensures |AllCodes| == 8
    ensures forall i :: 0 <= i < 8 ==> AllCodes[i].Value() == i
    ensures forall c: Code :: c in AllCodes
  {
    forall c: Code
      ensures c in AllCodes
    {
      assert AllCodes[c.Value()] == c;
    }
  }

  /** Value to member to value, and member to value to member, both round-trip;
      so values are distinct. */
  lemma ValueRoundTrip(c: Code, n: int)
    ensures FromValue(c.Value()) == Some(c)
    ensures FromValue(n).Some? ==> FromValue(n).value.Value() == n
  {
  }

  /** Name to member to name, and member to name to member, both round-trip;
      no two members share a name, so `Code(rc).name` names one member. */
  lemma NameRoundTrip(c: Code, s: string)
    ensures FromName(c.Name()) == Some(c)
    ensures FromName(s).Some? <==> exists d: Code :: d.Name() == s
  {
  }

  /** Distinct members have distinct values and distinct names. */
  lemma CodesInjective(c: Code, d: Code)
    requires c != d
    ensures c.Value() != d.Value()
    ensures c.Name() != d.Name()
  {
    ValueRoundTrip(c, 0);
    ValueRoundTrip(d, 0);
    NameRoundTrip(c, "");
    NameRoundTrip(d, "");
  }

  /** MQTT 5 reason codes of a PUBREC packet (section 3.5.2.1 of the MQTT
      Version 5.0 standard) that the server's callback returns. */
  datatype PubRecReasonCode = Success | ImplementationSpecificError | TopicNameInvalid | PayloadFormatInvalid
  {
    function Value(): nat
    {
      match this
      case Success => 0x00
      case ImplementationSpecificError => 0x83
      case TopicNameInvalid => 0x90
      case PayloadFormatInvalid => 0x99
    }
  }
}
