/** Message shapes of crates/sdk/src/error.rs and the `json!` frames built by
    the client: JSON-RPC 2.0, sections 4 and 5, without the `jsonrpc` member. */
module Rpc {
  import opened Options
  import opened Json

  const RPC_ERROR_CODE_HANDLER_FAILED: int := -32001
  const RPC_ERROR_CODE_TRANSPORT_FAILURE: int := -32098

  /** An untagged string or 64-bit integer. */
  datatype RequestId = StringId(s: string) | Integer(n: int)

  datatype RpcError = RpcError(code: int, message: string, data: Option<Json>)

  /** The payload of a response: `Result<Value, RpcError>`. */
  datatype RpcResult = Value(value: Json) | Failed(error: RpcError)

  datatype Incoming =
    | Response(id: RequestId, result: RpcResult)
    | Notification(name: string, params: Json)
    | ServerRequest(id: RequestId, name: string, params: Json)
    | Invalid

  function DecodeId(v: Json): Option<RequestId> {
    match v
    case Str(s) => Some(StringId(s))
    case Int(n) => if FitsI64(n) then Some(Integer(n)) else None
    case _ => None
  }

  function EncodeId(id: RequestId): Json {
    match id
    case StringId(s) => Str(s)
    case Integer(n) => Int(n)
  }

  function DecodeError(v: Json): Option<RpcError> {
    if !v.Obj? then None
    else
      var code, message := GetI64(v.fields, "code"), GetStr(v.fields, "message");
      if code.None? || message.None? then None
      else
        var data := Get(v.fields, "data");
        Some(RpcError(code.value, message.value, if data == Some(Null) then None else data))
  }

  function EncodeError(e: RpcError): Json {
    var base := map["code" := Int(e.code), "message" := Str(e.message)];
    Obj(if e.data.Some? then base["data" := e.data.value] else base)
  }

  function Params(fields: map<string, Json>): Json {
    GetOr(Get(fields, "params"), Null)
  }

  /** `classify_incoming`; `Invalid` stands for its `Err` returns. */
  function ClassifyIncoming(v: Json): Incoming {
    if !v.Obj? then Invalid
    else
      var hasId := "id" in v.fields;
      var id := if hasId then DecodeId(v.fields["id"]) else None;
      if hasId && id.None? then Invalid
      else
        match (id, GetStr(v.fields, "method"))
        case (Some(i), Some(m)) => ServerRequest(i, m, Params(v.fields))
        case (None, Some(m)) => Notification(m, Params(v.fields))
        case (Some(i), None) =>
          if "result" in v.fields then Response(i, Value(v.fields["result"]))
          else if "error" in v.fields then
            var e := DecodeError(v.fields["error"]);
            if e.Some? then Response(i, Failed(e.value)) else Invalid
          else Invalid
        case (None, None) => Invalid
  }

  /** What the client puts on the outbound queue. */
  datatype Frame =
    | RequestFrame(name: string, id: int, params: Json)
    | NotificationFrame(name: string, params: Json)
    | ResultFrame(replyTo: RequestId, result: Json)
    | ErrorFrame(replyTo: RequestId, error: RpcError)

  /** The JSON text each frame is serialized from. */
  function Encode(f: Frame): Json {
    match f
    case RequestFrame(m, id, p) => Obj(map["method" := Str(m), "id" := Int(id), "params" := p])
    case NotificationFrame(m, p) => Obj(map["method" := Str(m), "params" := p])
    case ResultFrame(id, r) => Obj(map["id" := EncodeId(id), "result" := r])
    case ErrorFrame(id, e) => Obj(map["id" := EncodeId(id), "error" := EncodeError(e)])
  }

  predicate ValidId(id: RequestId) {
    id.Integer? ==> FitsI64(id.n)
  }

  predicate ValidFrame(f: Frame) {
    match f
    case RequestFrame(_, id, _) => FitsI64(id)
    case NotificationFrame(_, _) => true
    case ResultFrame(id, _) => ValidId(id)
    case ErrorFrame(id, e) => ValidId(id) && FitsI64(e.code)
  }

  /** How a peer that classifies like this client reads a frame. */
  function Meaning(f: Frame): Incoming {
    match f
    case RequestFrame(m, id, p) => ServerRequest(Integer(id), m, p)
    case NotificationFrame(m, p) => Notification(m, p)
    case ResultFrame(id, r) => Response(id, Value(r))
    case ErrorFrame(id, e) => Response(id, Failed(if e.data == Some(Null) then e.(data := None) else e))
  }

  /** Every frame the client sends is read back as what was meant: the id and
      payload survive, and no frame is mistaken for another kind. */
  lemma FramesRoundTrip(f: Frame)
    requires ValidFrame(f)
    ensures ClassifyIncoming(Encode(f)) == Meaning(f)
  {
    match f
    case ErrorFrame(id, e) =>
      var v := EncodeError(e);
      assert "code" in v.fields && "message" in v.fields && ("data" in v.fields <==> e.data.Some?);
      assert DecodeError(v) == Some(if e.data == Some(Null) then e.(data := None) else e);
    case _ =>
  }

  /** Two frames with the same JSON text are the same frame. */
  lemma EncodeInjective(f: Frame, g: Frame)
    requires ValidFrame(f) && ValidFrame(g) && Encode(f) == Encode(g)
    requires f.ErrorFrame? ==> f.error.data != Some(Null)
    requires g.ErrorFrame? ==> g.error.data != Some(Null)
    ensures f == g
  {
    FramesRoundTrip(f);
    FramesRoundTrip(g);
  }

  // ----- what each kind of message looks like

  /** The member is there with this value. */
  predicate Has(fields: map<string, Json>, key: string, v: Json) {
    key in fields && fields[key] == v
  }

  /** The id is a string or a 64-bit integer. */
  predicate HasId(fields: map<string, Json>, id: RequestId) {
    match id
    case StringId(s) => Has(fields, "id", Str(s))
    case Integer(n) => Has(fields, "id", Int(n)) && -0x8000_0000_0000_0000 <= n < 0x8000_0000_0000_0000
  }

  /** Parameters that are left out are null. */
  predicate HasParams(fields: map<string, Json>, params: Json) {
    if "params" in fields then fields["params"] == params else params == Null
  }

  predicate HasMethod(fields: map<string, Json>) {
    "method" in fields && fields["method"].Str?
  }

  /** An error object: an integer code, a message, and data unless that is
      left out or null. */
  predicate IsError(v: Json, e: RpcError) {
    && v.Obj? && Has(v.fields, "code", Int(e.code)) && FitsI64(e.code) && Has(v.fields, "message", Str(e.message))
    && match e.data
       case Some(d) => d != Null && Has(v.fields, "data", d)
       case None => "data" !in v.fields || v.fields["data"] == Null
  }

  /** A message is a request if and only if it has an id and a method, a
      notification if and only if it has a method and no id, and a response if
      and only if it has an id and no method, but a result, or else an error;
      every other frame is refused. */
  lemma ClassifyIff(v: Json, id: RequestId, name: string, params: Json, result: Json, error: RpcError)
    ensures ClassifyIncoming(v) == ServerRequest(id, name, params)
       <==> v.Obj? && HasId(v.fields, id) && Has(v.fields, "method", Str(name)) && HasParams(v.fields, params)
    ensures ClassifyIncoming(v) == Notification(name, params)
       <==> v.Obj? && "id" !in v.fields && Has(v.fields, "method", Str(name)) && HasParams(v.fields, params)
    ensures ClassifyIncoming(v) == Response(id, Value(result))
       <==> v.Obj? && HasId(v.fields, id) && !HasMethod(v.fields) && Has(v.fields, "result", result)
    ensures ClassifyIncoming(v) == Response(id, Failed(error))
       <==> && v.Obj? && HasId(v.fields, id) && !HasMethod(v.fields) && "result" !in v.fields
            && "error" in v.fields && IsError(v.fields["error"], error)
  {
    if v.Obj? && "error" in v.fields { DecodeErrorIff(v.fields["error"], error); }
    if v.Obj? && "id" in v.fields { DecodeIdIff(v.fields, id); }
  }

  lemma DecodeErrorIff(v: Json, e: RpcError)
    ensures DecodeError(v) == Some(e) <==> IsError(v, e)
  {
  }

  lemma DecodeIdIff(fields: map<string, Json>, id: RequestId)
    requires "id" in fields
    ensures DecodeId(fields["id"]) == Some(id) <==> HasId(fields, id)
  {
  }
}
