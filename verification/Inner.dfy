/** The shared state of a `CodexClient` (crates/sdk/src/client/mod.rs) and the
    atomic operations on it. Every await point or atomic access of the source
    is one of these operations. */
module Inner {
  import opened Options
  import opened Json
  import opened Rpc

  const HANDSHAKE_NEW: nat := 0
  const HANDSHAKE_INITIALIZING: nat := 1
  const HANDSHAKE_INITIALIZED: nat := 2
  const HANDSHAKE_READY: nat := 3

  const METHOD_INITIALIZE: string := "initialize"
  const METHOD_INITIALIZED: string := "initialized"

  const OUTBOUND_CAPACITY: nat := 256

  /** A oneshot channel: `Closed` once its sender is dropped unsent. */
  datatype Channel = Open | Filled(result: RpcResult) | Closed

  datatype ServerEvent =
    | NotificationEvent(name: string, params: Json)
    | RequestEvent(id: RequestId, name: string, params: Json)
    | TransportClosed

  /** `pending` maps a request id to the oneshot channel its sender belongs
      to. `sent` is the whole history of the FIFO outbound queue, `written`
      the part of it the writer has taken. `events` is the broadcast stream. */
  datatype Shared = Shared(
    handshake: nat,
    nextId: int,
    pending: map<RequestId, nat>,
    channels: seq<Channel>,
    sent: seq<Frame>,
    written: nat,
    outboundOpen: bool,
    events: seq<ServerEvent>,
    handlers: set<string>)

  const FRESH: Shared := Shared(HANDSHAKE_NEW, 1, map[], [], [], 0, true, [], {})

  function FetchMax(s: Shared, v: nat): Shared {
    if s.handshake < v then s.(handshake := v) else s
  }

  function Store(s: Shared, v: nat): Shared {
    s.(handshake := v)
  }

  /** `outbound.send(frame).await` can complete: there is room, or it fails. */
  predicate CanSend(s: Shared) {
    !s.outboundOpen || |s.sent| < s.written + OUTBOUND_CAPACITY
  }

  function Enqueue(s: Shared, f: Frame): Shared {
    if s.outboundOpen then s.(sent := s.sent + [f]) else s
  }

  function Publish(s: Shared, e: ServerEvent): Shared {
    s.(events := s.events + [e])
  }

  /** The sender of channel `ch` is dropped. */
  function DropSender(s: Shared, ch: nat): Shared {
    if ch < |s.channels| && s.channels[ch].Open? then s.(channels := s.channels[ch := Closed]) else s
  }

  /** `sender.send(result)` */
  function Fill(s: Shared, ch: nat, r: RpcResult): Shared {
    if ch < |s.channels| && s.channels[ch].Open? then s.(channels := s.channels[ch := Filled(r)]) else s
  }

  /** `oneshot::channel()` and `pending.insert(id, tx)`; a sender that was
      there before is dropped. */
  function Register(s: Shared, id: RequestId): Shared {
    var t := if id in s.pending then DropSender(s, s.pending[id]) else s;
    t.(channels := t.channels + [Open], pending := t.pending[id := |t.channels|])
  }

  /** `pending.remove(&id)`, dropping the sender. */
  function Forget(s: Shared, id: RequestId): Shared {
    if id in s.pending then DropSender(s, s.pending[id]).(pending := s.pending - {id}) else s
  }

  /** The response arm of `process_incoming_value`. */
  function Resolve(s: Shared, id: RequestId, r: RpcResult): Shared {
    if id in s.pending then Fill(s.(pending := s.pending - {id}), s.pending[id], r) else s
  }

  function TransportFailure(message: string): RpcResult {
    Failed(RpcError(RPC_ERROR_CODE_TRANSPORT_FAILURE, message, None))
  }
}
