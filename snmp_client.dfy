/**
 * snmp/udp_client.go: the UDP SNMP client's bookkeeping.  PDU creation is
 * checked; sendPdu tags each request with a fresh request id and files it
 * in the pendings table before writing; a lost connection answers every
 * pending request.  PDU encoding and the socket write are inputs, and the
 * replies the client makes are recorded in order.
 */
module SnmpClient {
  import opened Common

  datatype SnmpVersion = V1 | V2C | V3 | Verr

  /** The last PDU type of bsnmp's `enum snmp_op` (GET = 0 ... REPORT = 8). */
  const SNMP_PDU_REPORT: int := 8

  datatype SnmpCode = CodeFailed | CodeBadNet | CodeOther(n: int)

  /** An SnmpCodeError: its code, the client's context text and the cause's text. */
  datatype SnmpError = SnmpError(code: SnmpCode, context: string, cause: string)

  /** Error(code, msg). */
  function Failure(code: SnmpCode, message: string): SnmpError { SnmpError(code, message, "") }

  function VersionName(v: SnmpVersion): string
  {
    match v
    case V1 => "V1"
    case V2C => "V2C"
    case V3 => "V3"
    case Verr => "Verr"
  }

  datatype Pdu = V2CPdu(op: int, version: SnmpVersion, requestId: int) | V3Pdu(op: int, requestId: int)

  function SetRequestId(pdu: Pdu, id: int): (r: Pdu)
    ensures r.requestId == id && r.op == pdu.op && r.V3Pdu? == pdu.V3Pdu?
  {
    pdu.(requestId := id)
  }

  datatype CreatedPdu = PduCreated(pdu: Pdu) | PduRejected(error: SnmpError)

  /** CreatePDU: the type must lie in 0 .. SNMP_PDU_REPORT; v1 and v2c share one PDU kind, v3 has its own. */
  function CreatePdu(op: int, version: SnmpVersion): (r: CreatedPdu)
    ensures r.PduCreated? <==> 0 <= op <= SNMP_PDU_REPORT && version != Verr
    ensures r.PduCreated? ==> r.pdu.op == op && r.pdu.requestId == 0
    ensures r.PduCreated? && (version == V1 || version == V2C) ==> r.pdu == V2CPdu(op, version, 0)
    ensures r.PduCreated? && version == V3 ==> r.pdu == V3Pdu(op, 0)
    ensures !(0 <= op <= SNMP_PDU_REPORT) ==> r == PduRejected(Failure(CodeFailed, "unsupported pdu type: " + IntToString(op)))
  {
    if op < 0 || SNMP_PDU_REPORT < op then PduRejected(Failure(CodeFailed, "unsupported pdu type: " + IntToString(op)))
    else match version
      case V1 => PduCreated(V2CPdu(op, version, 0))
      case V2C => PduCreated(V2CPdu(op, version, 0))
      case V3 => PduCreated(V3Pdu(op, 0))
      case Verr => PduRejected(Failure(CodeFailed, "unsupported version: " + VersionName(version)))
  }

  // ---------------------------------------------------------------------
  // SendAndRecv's unpacking of SafelyCall's return values
  // ---------------------------------------------------------------------

  /** One value SafelyCall hands back: nil, a PDU, an SnmpCodeError or another error. */
  datatype Returned = NilValue | PduValue(pdu: Pdu) | CodedError(error: SnmpError) | PlainError(text: string)

  /** toSnmpCodeError: an SnmpCodeError is kept, anything else becomes a FAILED error around it. */
  function ToSnmpError(v: Returned): SnmpError
    requires v.CodedError? || v.PlainError?
  {
    if v.CodedError? then v.error else SnmpError(CodeFailed, "", v.text)
  }

  /** The pdu and error SendAndRecv returns; a value of the wrong type is a failed Go type assertion. */
  datatype Unpacked = Unpacked(pdu: Option<Pdu>, err: Option<SnmpError>) | AssertionPanic

  function IsError(v: Returned): bool { v.CodedError? || v.PlainError? }

  function Unpack(values: seq<Returned>): (r: Unpacked)
    ensures |values| == 0 ==> r == Unpacked(None, Some(Failure(CodeFailed, "return empty.")))
    ensures |values| > 2 ==> r == Unpacked(None, Some(Failure(CodeFailed, "num of return value is error.")))
    ensures |values| == 1 && values[0].NilValue? ==> r == Unpacked(None, None)
    ensures |values| == 1 && IsError(values[0]) ==> r == Unpacked(None, Some(ToSnmpError(values[0])))
    ensures |values| == 1 && values[0].PduValue? ==> r == AssertionPanic
    ensures |values| == 2 && (values[0].NilValue? || values[0].PduValue?) && (values[1].NilValue? || IsError(values[1])) ==>
              r == Unpacked(if values[0].PduValue? then Some(values[0].pdu) else None,
                            if IsError(values[1]) then Some(ToSnmpError(values[1])) else None)
    ensures |values| == 2 && (IsError(values[0]) || values[1].PduValue?) ==> r == AssertionPanic
  {
    if |values| == 0 then Unpacked(None, Some(Failure(CodeFailed, "return empty.")))
    else if |values| == 1 then
      if values[0].NilValue? then Unpacked(None, None)
      else if IsError(values[0]) then Unpacked(None, Some(ToSnmpError(values[0])))
      else AssertionPanic
    else if |values| == 2 then
      if IsError(values[0]) || values[1].PduValue? then AssertionPanic
      else Unpacked(if values[0].PduValue? then Some(values[0].pdu) else None,
                    if IsError(values[1]) then Some(ToSnmpError(values[1])) else None)
    else Unpacked(None, Some(Failure(CodeFailed, "num of return value is error.")))
  }

  // ---------------------------------------------------------------------
  // The client
  // ---------------------------------------------------------------------

  /** Who a request answers: an InvokedContext or a callback, each named by an identity. */
  datatype Replier = Ctx(ctx: nat) | Callback(callback: nat)

  datatype Request = Request(pdu: Pdu, replier: Replier)

  /** A reply the client made: to whom, with which pdu and error. */
  datatype Delivery = Delivery(to: Replier, pdu: Option<Pdu>, err: Option<SnmpError>)

  datatype Encoded = EncodedBytes(bytes: seq<bv8>) | EncodeFailed(error: SnmpError)

  /** The replies handleDisConnection makes, one per key of `order`. */
  function BadNetReplies(pendings: map<int, Request>, order: seq<int>, cause: string): (r: seq<Delivery>)
    requires forall k | 0 <= k < |order| :: order[k] in pendings
    ensures |r| == |order|
    ensures forall k | 0 <= k < |order| :: r[k] == Delivery(pendings[order[k]].replier, None, Some(SnmpError(CodeBadNet, "", cause)))
    decreases |order|
  {
    if order == [] then []
    else BadNetReplies(pendings, order[..|order| - 1], cause) +
         [Delivery(pendings[order[|order| - 1]].replier, None, Some(SnmpError(CodeBadNet, "", cause)))]
  }

  /** The order a `range` over the pendings table visits its ids in: each once. */
  method RangeOrder(pendings: map<int, Request>) returns (order: seq<int>)
    ensures Seq2Set(order) == pendings.Keys && NoDuplicates(order)
  {
    order := [];
    var rest := pendings.Items;
    assert (set kv | kv in rest :: kv.0) == pendings.Keys by {
      forall k | k in pendings ensures k in (set kv | kv in rest :: kv.0) {
        assert (k, pendings[k]) in rest;
      }
    }
    while rest != {}
      invariant rest <= pendings.Items
      invariant Seq2Set(order) == pendings.Keys - (set kv | kv in rest :: kv.0) && NoDuplicates(order)
      invariant forall kv | kv in rest :: kv.0 !in Seq2Set(order)
      decreases |rest|
    {
      var kv :| kv in rest;
      assert Seq2Set(order + [kv.0]) == Seq2Set(order) + {kv.0};
      assert (set e | e in rest - {kv} :: e.0) == (set e | e in rest :: e.0) - {kv.0} by {
        forall e | e in rest && e.0 == kv.0 ensures e == kv {
          assert e.1 == pendings[kv.0] == kv.1;
        }
      }
      order := order + [kv.0];
      rest := rest - {kv};
    }
  }

  class UdpClient {
    var requestId: int
    var pendings: map<int, Request>
    var connected: bool
    /** The datagrams written, in order. */
    var written: seq<seq<bv8>>
    /** The replies made, in order. */
    var deliveries: seq<Delivery>

    /** NewSnmpClient: no request sent and nothing pending. */
    constructor ()
      ensures requestId == 0 && pendings == map[] && written == [] && deliveries == [] && Valid()
    {
      requestId := 0;
      pendings := map[];
      connected := false;
      written := [];
      deliveries := [];
    }

    /** Every pending request is filed under its own id, and no id is above the counter. */
    ghost predicate Valid()
      reads this
    {
      requestId >= 0 &&
      forall id | id in pendings :: 0 < id <= requestId && pendings[id].pdu.requestId == id
    }

    /**
     * sendPdu: exactly one of ctx and callback, or it panics.  The counter
     * is incremented and the pdu tagged with it; a taken id or an encode
     * failure registers nothing and replies with the error; otherwise the
     * request is pending before the write, and a failed write drops the
     * connection and replies BADNET (the request stays pending).
     */
    method SendPdu(pdu: Pdu, ctx: Option<nat>, callback: Option<nat>, encode: Pdu -> Encoded, writeError: Option<string>)
        returns (panicked: bool)
      modifies this
      ensures panicked <==> ctx.Some? == callback.Some?
      ensures panicked ==> requestId == old(requestId) && pendings == old(pendings) &&
                           deliveries == old(deliveries) && written == old(written)
      ensures !panicked ==>
                var id := old(requestId) + 1;
                var tagged := SetRequestId(pdu, id);
                var replier := if callback.Some? then Callback(callback.value) else Ctx(ctx.value);
                requestId == id &&
                (id in old(pendings) ==>
                   pendings == old(pendings) && written == old(written) &&
                   deliveries == old(deliveries) + [Delivery(replier, None, Some(Failure(CodeFailed, "identifier is repected.")))]) &&
                (id !in old(pendings) && encode(tagged).EncodeFailed? ==>
                   pendings == old(pendings) && written == old(written) &&
                   deliveries == old(deliveries) +
                     [Delivery(replier, None, Some(SnmpError(encode(tagged).error.code, "encode pdu failed", "")))]) &&
                (id !in old(pendings) && encode(tagged).EncodedBytes? ==>
                   pendings == old(pendings)[id := Request(tagged, replier)] &&
                   written == old(written) + [encode(tagged).bytes] &&
                   (writeError.None? ==> deliveries == old(deliveries) && connected == old(connected)) &&
                   (writeError.Some? ==>
                      !connected &&
                      deliveries == old(deliveries) + [Delivery(replier, None, Some(SnmpError(CodeBadNet, "send pdu failed", writeError.value)))]))
      ensures old(Valid()) ==> Valid()
      ensures old(Valid()) && !panicked ==> old(requestId) + 1 !in old(pendings)
    {
      if ctx.None? {
        if callback.None? {
          return true;
        }
      } else if callback.Some? {
        return true;
      }
      panicked := false;
      var replier := if callback.Some? then Callback(callback.value) else Ctx(ctx.value);
      requestId := requestId + 1;
      var tagged := SetRequestId(pdu, requestId);
      var err: SnmpError;
      if tagged.requestId in pendings {
        err := Failure(CodeFailed, "identifier is repected.");
      } else {
        var encoded := encode(tagged);
        if encoded.EncodeFailed? {
          err := SnmpError(encoded.error.code, "encode pdu failed", "");
        } else {
          pendings := pendings[tagged.requestId := Request(tagged, replier)];
          written := written + [encoded.bytes];
          if writeError.None? {
            return;
          }
          connected := false;
          err := SnmpError(CodeBadNet, "send pdu failed", writeError.value);
        }
      }
      deliveries := deliveries + [Delivery(replier, None, Some(err))];
    }

    /** handleRemoveRequest: only that id leaves the table. */
    method RemoveRequest(id: int)
      modifies this
      ensures pendings == old(pendings) - {id}
      ensures requestId == old(requestId) && deliveries == old(deliveries) && written == old(written)
      ensures old(Valid()) ==> Valid()
    {
      pendings := pendings - {id};
    }

    /** handleDisConnection: every pending request is answered BADNET once; the table itself is kept. */
    method HandleDisconnection(cause: string) returns (order: seq<int>)
      modifies this
      ensures Seq2Set(order) == pendings.Keys && NoDuplicates(order)
      ensures pendings == old(pendings) && requestId == old(requestId) && written == old(written)
      ensures deliveries == old(deliveries) + BadNetReplies(pendings, order, cause)
    {
      order := RangeOrder(pendings);
      var replies: seq<Delivery> := [];
      var i := 0;
      while i < |order|
        invariant 0 <= i <= |order|
        invariant replies == BadNetReplies(pendings, order[..i], cause)
      {
        assert order[..i + 1][..i] == order[..i];
        replies := replies + [Delivery(pendings[order[i]].replier, None, Some(SnmpError(CodeBadNet, "", cause)))];
        i := i + 1;
      }
      assert order[..i] == order;
      deliveries := deliveries + replies;
    }

    /**
     * SendAndRecv after the call returned `values`: the unpacked answer,
     * and the deferred removal of the request's id when one was assigned.
     */
    method SendAndRecv(assignedId: int, values: seq<Returned>) returns (r: Unpacked)
      modifies this
      ensures r == Unpack(values)
      ensures pendings == (if assignedId != 0 then old(pendings) - {assignedId} else old(pendings))
      ensures requestId == old(requestId) && deliveries == old(deliveries)
    {
      r := Unpack(values);
      if 0 != assignedId {
        RemoveRequest(assignedId);
      }
    }
  }
}
