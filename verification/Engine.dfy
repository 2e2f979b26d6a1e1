/** The client as a transition system: any number of callers, the inbound loop
    and the transport, interleaved one atomic operation at a time. */
module Engine {
  import opened Options
  import opened Json
  import opened Rpc
  import opened Inner

  /** Who is running `request_value_internal`. */
  datatype Purpose = Raw | Initialize | Ensure

  datatype Call = Call(name: string, params: Json, purpose: Purpose)

  predicate RequiresReady(call: Call) {
    call.purpose.Raw? && call.name != METHOD_INITIALIZE
  }

  datatype Outcome = Got(value: Json) | RpcFailure(error: RpcError) | ChannelClosed | SendFailed | TimedOut

  /** Where a caller stands; each constructor is a point between two atomic
      operations of the function named beside it. */
  datatype Pc =
    | Idle
    // request_value_internal
    | Gate(call: Call)
    | AllocId(call: Call)
    | Insert(call: Call, id: int)
    | Send(call: Call, id: int, chan: nat)
    | Unsend(call: Call, id: int, chan: nat)
    | Await(call: Call, id: int, chan: nat)
    | Expire(call: Call, id: int, chan: nat)
    // initialize
    | InitializeMax
    // send_notification, also on behalf of initialized()
    | NoteGate(name: string, params: Json)
    | NoteSend(name: string, params: Json, marksReady: bool)
    | InitializedGate
    | InitializedMax
    // respond_server_request and respond_server_request_error
    | ReplySend(reply: Frame)
    // ensure_ready_with
    | EnsureFast
    | EnsureLock
    | EnsureCheck
    | EnsureNeed
    | EnsureMark
    | EnsureReset
    | EnsureSet
    | EnsureNotify
    | EnsureReady

  predicate InRequest(pc: Pc) {
    pc.Gate? || pc.AllocId? || pc.Insert? || pc.Send? || pc.Unsend? || pc.Await? || pc.Expire?
  }

  /** What one processed frame did. */
  datatype Effect =
    | Resolved(id: RequestId, result: RpcResult)
    | Dropped(id: RequestId)
    | Published(event: ServerEvent)
    | Replied(frame: Frame)
    | ReplyLost(frame: Frame)

  /** `run_inbound_loop` between two atomic operations. */
  datatype LoopPc =
    | Receiving
    | LookUpHandler(id: RequestId, name: string, params: Json)
    | Handling(id: RequestId, name: string, params: Json)
    | Replying(reply: Frame)
    | Failing(entries: set<nat>, message: string)
    | Stopped(failed: bool)

  /** What the inbound channel delivers. */
  datatype Item = Payload(value: Json) | Broken(message: string)

  /** The history of a run. */
  datatype Entry =
    | Registered(id: int)
    | Sent(frame: Frame)
    | Handled(incoming: Incoming)
    | LoopFailed
    | InitOk(id: int)
    | EnsureFailed
    | EnsureOk(handshake: nat)

  datatype State = State(
    sh: Shared,
    callers: map<nat, Pc>,
    lock: Option<nat>,
    loop: LoopPc,
    received: seq<Item>,
    handled: seq<Incoming>,
    effects: seq<Effect>,
    owner: map<int, nat>,
    outcomes: map<int, Outcome>,
    log: seq<Entry>)

  const INIT: State := State(FRESH, map[], None, Receiving, [], [], [], map[], map[], [])

  function PcOf(s: State, c: nat): Pc {
    if c in s.callers then s.callers[c] else Idle
  }

  function At(s: State, c: nat, pc: Pc): State {
    s.(callers := s.callers[c := pc])
  }

  function Log(s: State, e: Entry): State {
    s.(log := s.log + [e])
  }

  /** Nondeterminism resolved at a caller's step: whether the timer fires
      before the answer is seen, and whether the `initialize` result decodes. */
  datatype Choice = Choice(timerFires: bool, decodes: bool)

  datatype Step =
    // callers enter the client's public operations
    | StartRequest(c: nat, name: string, params: Json)
    | StartInitialize(c: nat, params: Json)
    | StartNotification(c: nat, name: string, params: Json)
    | StartInitialized(c: nat)
    | StartEnsure(c: nat)
    | StartReply(c: nat, reply: Frame)
    // a caller performs its next atomic operation
    | Advance(c: nat, choice: Choice)
    // the inbound loop
    | Receive(item: Item)
    | EndOfStream
    | FindHandler(decodes: bool)
    | HandlerDone(answer: Frame)
    | SendReply
    | FailOne(chan: nat)
    | Announce
    // the transport and handler registration
    | WriterTakes
    | CloseOutbound
    | SetHandler(name: string)
    | ClearHandler(name: string)

  /** The seven methods of the server-request table. */
  const SERVER_REQUESTS: set<string> := {
    "account/chatgptAuthTokens/refresh", "applyPatchApproval", "execCommandApproval",
    "item/commandExecution/requestApproval", "item/fileChange/requestApproval",
    "item/tool/requestUserInput", "item/tool/call" }

  /** The request ends; the caller goes on with what it was run for. */
  function EndRequest(s: State, c: nat, call: Call, id: int, o: Outcome, decodes: bool): State {
    var t := s.(outcomes := s.outcomes[id := o]);
    if call.purpose.Raw? then At(t, c, Idle)
    else if o.Got? && decodes then
      Log(At(t, c, if call.purpose.Ensure? then EnsureSet else InitializeMax), InitOk(id))
    else At(t, c, if call.purpose.Ensure? then EnsureReset else Idle)
  }

  /** `send_message` succeeded or failed for a caller. */
  function SendThen(s: State, c: nat, f: Frame, ok: Pc, failed: Pc): State {
    if s.sh.outboundOpen then At(Log(s.(sh := Enqueue(s.sh, f)), Sent(f)), c, ok)
    else At(s, c, failed)
  }

  function RequestNext(s: State, c: nat, pc: Pc, choice: Choice): Option<State>
    requires InRequest(pc)
  {
    match pc
    case Gate(call) =>
      if RequiresReady(call) then
        Some(At(s, c, if s.sh.handshake < HANDSHAKE_READY then Idle else AllocId(call)))
      else if call.purpose.Raw? && call.name != METHOD_INITIALIZE then None
      else if s.sh.handshake >= HANDSHAKE_INITIALIZED then
        Some(At(s, c, if call.purpose.Ensure? then EnsureReset else Idle))
      else Some(At(s, c, AllocId(call)))
    case AllocId(call) =>
      var id := s.sh.nextId;
      Some(At(s.(sh := s.sh.(nextId := id + 1), owner := s.owner[id := c]), c, Insert(call, id)))
    case Insert(call, id) =>
      var chan := |s.sh.channels|;
      Some(At(Log(s.(sh := Register(s.sh, Integer(id))), Registered(id)), c, Send(call, id, chan)))
    case Send(call, id, chan) =>
      if !CanSend(s.sh) then None
      else Some(SendThen(s, c, RequestFrame(call.name, id, call.params), Await(call, id, chan), Unsend(call, id, chan)))
    case Unsend(call, id, chan) =>
      Some(EndRequest(s.(sh := Forget(s.sh, Integer(id))), c, call, id, SendFailed, choice.decodes))
    case Await(call, id, chan) =>
      if chan >= |s.sh.channels| then None
      else
        match s.sh.channels[chan] {
          // the timeout polls the channel before the timer
          case Open => if choice.timerFires then Some(At(s, c, Expire(call, id, chan))) else None
          case Filled(Value(v)) => Some(EndRequest(s, c, call, id, Got(v), choice.decodes))
          case Filled(Failed(e)) => Some(EndRequest(s, c, call, id, RpcFailure(e), choice.decodes))
          case Closed => Some(EndRequest(s, c, call, id, ChannelClosed, choice.decodes))
        }
    case Expire(call, id, chan) =>
      Some(EndRequest(s.(sh := Forget(s.sh, Integer(id))), c, call, id, TimedOut, choice.decodes))
  }

  predicate InNote(pc: Pc) {
    || pc.InitializeMax? || pc.NoteGate? || pc.NoteSend?
    || pc.InitializedGate? || pc.InitializedMax? || pc.ReplySend?
  }

  function NoteNext(s: State, c: nat, pc: Pc): Option<State>
    requires InNote(pc)
  {
    match pc
    case InitializeMax => Some(At(s.(sh := FetchMax(s.sh, HANDSHAKE_INITIALIZED)), c, Idle))
    case NoteGate(name, params) =>
      if name != METHOD_INITIALIZED && s.sh.handshake < HANDSHAKE_READY then Some(At(s, c, Idle))
      else Some(At(s, c, NoteSend(name, params, false)))
    case InitializedGate =>
      if s.sh.handshake < HANDSHAKE_INITIALIZED then Some(At(s, c, Idle))
      else Some(At(s, c, NoteSend(METHOD_INITIALIZED, Obj(map[]), true)))
    case NoteSend(name, params, marksReady) =>
      if !CanSend(s.sh) then None
      else Some(SendThen(s, c, NotificationFrame(name, params), if marksReady then InitializedMax else Idle, Idle))
    case InitializedMax => Some(At(s.(sh := FetchMax(s.sh, HANDSHAKE_READY)), c, Idle))
    case ReplySend(reply) =>
      if !CanSend(s.sh) then None else Some(SendThen(s, c, reply, Idle, Idle))
  }

  function Release(s: State): State {
    s.(lock := None)
  }

  predicate InEnsure(pc: Pc) {
    || pc.EnsureFast? || pc.EnsureLock? || pc.EnsureCheck? || pc.EnsureNeed? || pc.EnsureMark?
    || pc.EnsureReset? || pc.EnsureSet? || pc.EnsureNotify? || pc.EnsureReady?
  }

  function EnsureNext(s: State, c: nat, pc: Pc): Option<State>
    requires InEnsure(pc)
  {
    match pc
    case EnsureFast =>
      if s.sh.handshake == HANDSHAKE_READY then Some(Log(At(s, c, Idle), EnsureOk(s.sh.handshake)))
      else Some(At(s, c, EnsureLock))
    case EnsureLock => if s.lock.Some? then None else Some(At(s.(lock := Some(c)), c, EnsureCheck))
    case EnsureCheck =>
      if s.sh.handshake == HANDSHAKE_READY then Some(Release(Log(At(s, c, Idle), EnsureOk(s.sh.handshake))))
      else Some(At(s, c, EnsureNeed))
    case EnsureNeed =>
      Some(At(s, c, if s.sh.handshake < HANDSHAKE_INITIALIZED then EnsureMark else EnsureNotify))
    case EnsureMark =>
      Some(At(s.(sh := Store(s.sh, HANDSHAKE_INITIALIZING)), c, Gate(Call(METHOD_INITIALIZE, Obj(map[]), Ensure))))
    case EnsureReset =>
      Some(Release(Log(At(s.(sh := Store(s.sh, HANDSHAKE_NEW)), c, Idle), EnsureFailed)))
    case EnsureSet => Some(At(s.(sh := Store(s.sh, HANDSHAKE_INITIALIZED)), c, EnsureNotify))
    case EnsureNotify =>
      if !CanSend(s.sh) then None
      else
        var t := SendThen(s, c, NotificationFrame(METHOD_INITIALIZED, Obj(map[])), EnsureReady, Idle);
        Some(if s.sh.outboundOpen then t else Release(t))
    case EnsureReady =>
      Some(Release(Log(At(s.(sh := Store(s.sh, HANDSHAKE_READY)), c, Idle), EnsureOk(HANDSHAKE_READY))))
  }

  function AdvanceNext(s: State, c: nat, choice: Choice): Option<State> {
    var pc := PcOf(s, c);
    if InRequest(pc) then RequestNext(s, c, pc, choice)
    else if InNote(pc) then NoteNext(s, c, pc)
    else if InEnsure(pc) then EnsureNext(s, c, pc)
    else None
  }

  /** `fail_all_pending` takes the whole map; the senders are then used one by
      one, outside the lock. */
  function BeginFailing(s: State, message: string): State {
    Log(s.(loop := Failing(s.sh.pending.Values, message), sh := s.sh.(pending := map[])), LoopFailed)
  }

  function Done(s: State, e: Effect): State {
    s.(effects := s.effects + [e], loop := Receiving)
  }

  /** One turn of `while let Some(frame) = inbound.recv().await`. */
  function ReceiveNext(s: State, item: Item): State {
    var t := s.(received := s.received + [item]);
    match item
    case Broken(message) => BeginFailing(t, message)
    case Payload(v) =>
      var m := ClassifyIncoming(v);
      if m.Invalid? then BeginFailing(t, "processing inbound frame failed")
      else
        var u := Log(t.(handled := t.handled + [m]), Handled(m));
        match m {
          case Response(id, r) =>
            Done(u.(sh := Resolve(u.sh, id, r)), if id in u.sh.pending then Resolved(id, r) else Dropped(id))
          case Notification(name, params) =>
            var e := NotificationEvent(name, params);
            Done(u.(sh := Publish(u.sh, e)), Published(e))
          case ServerRequest(id, name, params) => u.(loop := LookUpHandler(id, name, params))
        }
  }

  predicate OfLoop(step: Step) {
    || step.Receive? || step.EndOfStream? || step.FindHandler? || step.HandlerDone?
    || step.SendReply? || step.FailOne? || step.Announce?
  }

  function LoopNext(s: State, step: Step): Option<State>
    requires OfLoop(step)
  {
    match (step, s.loop)
    case (Receive(item), Receiving) => Some(ReceiveNext(s, item))
    case (EndOfStream, Receiving) => Some(s.(loop := Stopped(false)))
    case (FindHandler(decodes), LookUpHandler(id, name, params)) =>
      if decodes && name in SERVER_REQUESTS && name in s.sh.handlers then Some(s.(loop := Handling(id, name, params)))
      else
        var e := RequestEvent(id, name, params);
        Some(Done(s.(sh := Publish(s.sh, e)), Published(e)))
    case (HandlerDone(answer), Handling(id, name, params)) =>
      if answer.ResultFrame? && answer.replyTo == id then Some(s.(loop := Replying(answer)))
      else if answer.ErrorFrame? && answer.replyTo == id && answer.error.code == RPC_ERROR_CODE_HANDLER_FAILED
          && answer.error.data.None? then
        Some(s.(loop := Replying(answer)))
      else None
    case (SendReply, Replying(reply)) =>
      if !CanSend(s.sh) then None
      else if s.sh.outboundOpen then Some(Done(Log(s.(sh := Enqueue(s.sh, reply)), Sent(reply)), Replied(reply)))
      else Some(Done(s.(sh := Publish(s.sh, TransportClosed)), ReplyLost(reply)))
    case (FailOne(chan), Failing(entries, message)) =>
      if chan in entries then
        Some(s.(loop := Failing(entries - {chan}, message), sh := Fill(s.sh, chan, TransportFailure(message))))
      else None
    case (Announce, Failing(entries, message)) =>
      if entries == {} then Some(s.(loop := Stopped(true), sh := Publish(s.sh, TransportClosed))) else None
    case _ => None
  }

  /** A caller that is not inside the client enters at `pc`. */
  function Enter(s: State, c: nat, pc: Pc): Option<State> {
    if PcOf(s, c).Idle? then Some(At(s, c, pc)) else None
  }

  /** The state after `step`, or `None` when the step cannot happen. */
  function Next(s: State, step: Step): Option<State> {
    match step
    case StartRequest(c, name, params) => Enter(s, c, Gate(Call(name, params, Raw)))
    case StartInitialize(c, params) => Enter(s, c, Gate(Call(METHOD_INITIALIZE, params, Initialize)))
    case StartNotification(c, name, params) => Enter(s, c, NoteGate(name, params))
    case StartInitialized(c) => Enter(s, c, InitializedGate)
    case StartEnsure(c) => Enter(s, c, EnsureFast)
    case StartReply(c, reply) =>
      if reply.ResultFrame? || reply.ErrorFrame? then Enter(s, c, ReplySend(reply)) else None
    case Advance(c, choice) => AdvanceNext(s, c, choice)
    case WriterTakes =>
      if !s.sh.outboundOpen || s.sh.written >= |s.sh.sent| then None
      else Some(s.(sh := s.sh.(written := s.sh.written + 1)))
    case CloseOutbound => Some(s.(sh := s.sh.(outboundOpen := false)))
    case SetHandler(name) => Some(s.(sh := s.sh.(handlers := s.sh.handlers + {name})))
    case ClearHandler(name) => Some(s.(sh := s.sh.(handlers := s.sh.handlers - {name})))
    case _ => if OfLoop(step) then LoopNext(s, step) else None
  }

  /** The state a sequence of steps leads to. */
  function Run(s: State, steps: seq<Step>): Option<State> {
    if steps == [] then Some(s)
    else
      var t := Run(s, steps[..|steps| - 1]);
      if t.None? then None else Next(t.value, steps[|steps| - 1])
  }

  ghost predicate Reachable(s: State) {
    exists steps :: Run(INIT, steps) == Some(s)
  }

  /** A run split after its first step. */
  lemma {:induction false} RunFrom(s: State, step: Step, steps: seq<Step>)
    requires Next(s, step).Some?
    ensures Run(s, [step] + steps) == Run(Next(s, step).value, steps)
  {
    if steps == [] {
      RunLast(s, [], step);
      assert [step] + steps == [] + [step];
    } else {
      var front, last := steps[..|steps| - 1], steps[|steps| - 1];
      RunFrom(s, step, front);
      RunLast(s, [step] + front, last);
      RunLast(Next(s, step).value, front, last);
      assert [step] + steps == ([step] + front) + [last] && steps == front + [last];
    }
  }

  lemma RunLast(s: State, front: seq<Step>, last: Step)
    ensures Run(s, front + [last]) == if Run(s, front).None? then None else Next(Run(s, front).value, last)
  {
    assert (front + [last])[..|front|] == front;
  }

  lemma RunAfter(s: State, step: Step, t: State, rest: seq<Step>)
    requires Next(s, step) == Some(t)
    ensures Run(s, [step] + rest) == Run(t, rest)
  {
    RunFrom(s, step, rest);
  }
}
