/** Message IDs and the telemetry request lookup. */
module Telemetry {
  import opened Collections

  type MsgId = bv32

  const TLM: bv8 := 2
  const TLM_REQ: bv8 := 4

  // ---- packing, Message.hpp ------------------------------------------------------------------------

  function ToMsgId(mod: bv8, typ: bv8, func: bv8): MsgId {
    ((mod as bv32) << 16) | ((typ as bv32) << 8) | (func as bv32)
  }

  function ToModId(id: MsgId): bv8 {
    ((id >> 16) & 0xFF) as bv8      // the cast to uint8_t keeps the low byte
  }

  function ToMsgTypeId(id: MsgId): bv8 {
    ((id >> 8) & 0xFF) as bv8
  }

  function ToFuncId(id: MsgId): bv8 {
    (id & 0xFF) as bv8
  }

  function ConvertToTlmId(id: MsgId): MsgId {
    (id & 0xFFFF00FF) | ((TLM as bv32) << 8)
  }

  /** The layout in numbers: module, type and function are the bytes from the third down. */
  lemma LayoutInNumbers(mod: bv8, typ: bv8, func: bv8)
    ensures ToMsgId(mod, typ, func) == (mod as bv32) * 0x1_0000 + (typ as bv32) * 0x100 + (func as bv32)
    ensures ToMsgId(0x12, 0x34, 0x56) == 0x123456
  {
  }

  lemma ExtractPacked(mod: bv8, typ: bv8, func: bv8)
    ensures ToModId(ToMsgId(mod, typ, func)) == mod
    ensures ToMsgTypeId(ToMsgId(mod, typ, func)) == typ
    ensures ToFuncId(ToMsgId(mod, typ, func)) == func
  {
  }

  /** The three fields determine an ID exactly if its top byte is clear. */
  lemma PackExtracted(id: MsgId)
    ensures ToMsgId(ToModId(id), ToMsgTypeId(id), ToFuncId(id)) == id <==> id & 0xFF000000 == 0
  {
  }

  lemma PackingInjective(m1: bv8, t1: bv8, f1: bv8, m2: bv8, t2: bv8, f2: bv8)
    requires ToMsgId(m1, t1, f1) == ToMsgId(m2, t2, f2)
    ensures m1 == m2 && t1 == t2 && f1 == f2
  {
    ExtractPacked(m1, t1, f1);
    ExtractPacked(m2, t2, f2);
  }

  /** Conversion sets the type field and keeps the others, so converting twice is converting once. */
  lemma ConversionSetsType(mod: bv8, typ: bv8, func: bv8)
    ensures ConvertToTlmId(ToMsgId(mod, typ, func)) == ToMsgId(mod, 2, func)
  {
  }

  /** Conversion ORs the telemetry type in after clearing the type byte, also for IDs with a set top byte. */
  lemma ConversionInNumbers(id: MsgId)
    ensures ToMsgTypeId(ConvertToTlmId(id)) == 2 && ToModId(ConvertToTlmId(id)) == ToModId(id)
    ensures ToFuncId(ConvertToTlmId(id)) == ToFuncId(id) && ConvertToTlmId(id) >> 24 == id >> 24
  {
  }

  lemma ConversionIdempotent(id: MsgId)
    ensures ConvertToTlmId(ConvertToTlmId(id)) == ConvertToTlmId(id)
  {
  }

  // ---- lookup, TlmReqHandler.hpp -------------------------------------------------------------------

  /** `TlmStorage::find_by_req_id`. The recursive call passes the converted ID on. */
  function FindByReqId(stored: seq<MsgId>, request: MsgId, idx: nat): Option<nat>
    decreases |stored| - idx
  {
    var tlmId := ConvertToTlmId(request);
    if idx >= |stored| then None
    else if stored[idx] == tlmId then Some(idx)
    else FindByReqId(stored, tlmId, idx + 1)
  }

  /** The search, in spite of converting again at every level, finds the first stored message at or after
      `idx` whose ID is the request's telemetry ID, and fails exactly when there is none. */
  lemma {:induction false} FindsFirst(stored: seq<MsgId>, request: MsgId, idx: nat)
    ensures match FindByReqId(stored, request, idx)
            case Some(k) => idx <= k < |stored| && stored[k] == ConvertToTlmId(request)
                            && forall j :: idx <= j < k ==> stored[j] != ConvertToTlmId(request)
            case None => forall j :: idx <= j < |stored| ==> stored[j] != ConvertToTlmId(request)
    decreases |stored| - idx
  {
    if idx < |stored| && stored[idx] != ConvertToTlmId(request) {
      FindsFirst(stored, ConvertToTlmId(request), idx + 1);
      ConversionIdempotent(request);
    }
  }

  /** `MakeReqMsg`: the request ID the handler of application `app` accepts for a stored message. */
  function RequestIdFor(app: bv8, stored: MsgId): MsgId {
    ToMsgId(app, TLM_REQ, ToFuncId(stored))
  }

  /** The router's request IDs, one per stored message. */
  function RouterIds(app: bv8, stored: seq<MsgId>): seq<MsgId> {
    seq(|stored|, i requires 0 <= i < |stored| => RequestIdFor(app, stored[i]))
  }

  /** A made request is of type TLM_REQ and names the application and the message's function. */
  lemma RequestFields(app: bv8, id: MsgId)
    ensures ToModId(RequestIdFor(app, id)) == app && ToMsgTypeId(RequestIdFor(app, id)) == 4
    ensures ToFuncId(RequestIdFor(app, id)) == ToFuncId(id) && RequestIdFor(app, id) >> 24 == 0
  {
    ExtractPacked(app, TLM_REQ, ToFuncId(id));
  }

  /** The router listens to one request per stored message, in order, and to no telemetry ID; whatever is
      stored, a stored telemetry message is not mistaken for a request. */
  lemma RouterTakesRequests(app: bv8, stored: seq<MsgId>)
    ensures |RouterIds(app, stored)| == |stored|
    ensures forall k :: 0 <= k < |stored| ==>
              var request := RouterIds(app, stored)[k];
              && ToModId(request) == app && ToMsgTypeId(request) == 4 && ToFuncId(request) == ToFuncId(stored[k])
              && request != ConvertToTlmId(request)
    ensures forall id :: ToMsgTypeId(id) == 2 ==> id !in RouterIds(app, stored)
  {
    forall k | 0 <= k < |stored|
      ensures ToMsgTypeId(RouterIds(app, stored)[k]) == 4 && ToModId(RouterIds(app, stored)[k]) == app
      ensures ToFuncId(RouterIds(app, stored)[k]) == ToFuncId(stored[k])
    {
      RequestFields(app, stored[k]);
    }
    forall id ensures ToMsgTypeId(ConvertToTlmId(id)) == 2 {
      ConversionInNumbers(id);
    }
  }

  lemma RequestNamesTelemetry(app: bv8, id: MsgId)
    ensures ConvertToTlmId(RequestIdFor(app, id)) == ToMsgId(app, 2, ToFuncId(id))
    ensures ConvertToTlmId(RequestIdFor(app, id)) == id <==> id == ToMsgId(app, 2, ToFuncId(id))
  {
    ConversionSetsType(app, TLM_REQ, ToFuncId(id));
  }

  /** Nothing checks what is stored. A request resolves to its own message exactly if that message is a
      telemetry message of the application and no earlier one has the same ID. */
  lemma RequestResolvesIff(app: bv8, stored: seq<MsgId>, k: nat)
    requires k < |stored|
    ensures FindByReqId(stored, RouterIds(app, stored)[k], 0) == Some(k)
            <==> stored[k] == ToMsgId(app, 2, ToFuncId(stored[k])) && stored[k] !in stored[..k]
  {
    RequestNamesTelemetry(app, stored[k]);
    FindsFirst(stored, RequestIdFor(app, stored[k]), 0);
  }
}
