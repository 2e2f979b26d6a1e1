/** `Inner` as the object the source keeps behind its `Arc`: the atomic
    operations on its fields, the loop that fails everything pending and the
    inbound loop, each against the functions the transition system uses. */
module ClientObject {
  import opened Options
  import opened Json
  import opened Rpc
  import opened Inner
  import opened Engine
  import opened Effects

  /** What a registered handler returns: `Ok(result)` or `Err(err)`. */
  datatype HandlerResult = HandlerOk(result: Json) | HandlerErr(message: string)

  /** The application's side: which parameters decode, and what the handler
      for a server request answers. */
  datatype Application = Application(
    decodes: (string, Json) -> bool,
    handle: (string, Json) -> HandlerResult)

  /** `send_server_request_handler_result` */
  function ReplyFrame(id: RequestId, h: HandlerResult): Frame {
    match h
    case HandlerOk(result) => ResultFrame(id, result)
    case HandlerErr(message) => ErrorFrame(id, RpcError(RPC_ERROR_CODE_HANDLER_FAILED, message, None))
  }

  /** The server reads the frame as the result of the handler, or as error
      -32001 with its message. */
  predicate IsAnswer(f: Frame, id: RequestId, h: HandlerResult) {
    ClassifyIncoming(Encode(f)) ==
      match h
      case HandlerOk(result) => Response(id, Value(result))
      case HandlerErr(message) => Response(id, Failed(RpcError(-32001, message, None)))
  }

  lemma ReplySays(id: RequestId, h: HandlerResult)
    requires ValidId(id)
    ensures IsAnswer(ReplyFrame(id, h), id, h)
  {
    FramesRoundTrip(ReplyFrame(id, h));
  }

  /** All the senders in `entries` are used to report the failure. */
  function FailEach(s: Shared, entries: set<nat>, message: string): Shared {
    s.(channels := seq(|s.channels|, i requires 0 <= i < |s.channels| =>
      if i in entries && s.channels[i].Open? then Filled(TransportFailure(message)) else s.channels[i]))
  }

  function FailAll(s: Shared, message: string): Shared {
    FailEach(s.(pending := map[]), s.pending.Values, message)
  }

  /** The order in which the source walks the taken map does not matter. */
  lemma FailOneThenRest(s: Shared, entries: set<nat>, chan: nat, message: string)
    requires chan in entries
    ensures FailEach(Fill(s, chan, TransportFailure(message)), entries - {chan}, message)
        == FailEach(s, entries, message)
  {
    var t := Fill(s, chan, TransportFailure(message));
    assert FailEach(t, entries - {chan}, message).channels == FailEach(s, entries, message).channels;
  }

  /** Serving one request: publish it, or answer it. */
  function Serve(s: Shared, id: RequestId, name: string, params: Json, app: Application): Shared {
    if app.decodes(name, params) && name in SERVER_REQUESTS && name in s.handlers then
      if s.outboundOpen then Enqueue(s, ReplyFrame(id, app.handle(name, params)))
      else Publish(s, TransportClosed)
    else Publish(s, RequestEvent(id, name, params))
  }

  /** A server request in the table whose parameters decode and which has a
      handler is answered with exactly one frame, read by the server as what
      the handler gave, or its loss is announced; any other is published. */
  lemma RequestIsServed(s: Shared, id: RequestId, name: string, params: Json, app: Application)
    requires ValidId(id)
    ensures
      var t := Serve(s, id, name, params, app);
      var handled := app.decodes(name, params) && name in s.handlers
        && name in {"account/chatgptAuthTokens/refresh", "applyPatchApproval", "execCommandApproval",
                    "item/commandExecution/requestApproval", "item/fileChange/requestApproval",
                    "item/tool/requestUserInput", "item/tool/call"};
      if !handled then t == s.(events := s.events + [RequestEvent(id, name, params)])
      else if !s.outboundOpen then t == s.(events := s.events + [TransportClosed])
      else
        t.sent != [] && t == s.(sent := s.sent + [t.sent[|t.sent| - 1]])
        && ClassifyIncoming(Encode(t.sent[|t.sent| - 1])) == match app.handle(name, params) {
             case HandlerOk(result) => Response(id, Value(result))
             case HandlerErr(message) => Response(id, Failed(RpcError(-32001, message, None)))
           }
  {
    ReplySays(id, app.handle(name, params));
  }

  /** `process_incoming_value` on a frame that can be read. */
  function Process(s: Shared, m: Incoming, app: Application): Shared {
    match m
    case Response(id, r) => Resolve(s, id, r)
    case Notification(name, params) => Publish(s, NotificationEvent(name, params))
    case ServerRequest(id, name, params) => Serve(s, id, name, params, app)
    case Invalid => s
  }

  function ProcessAll(s: Shared, ms: seq<Incoming>, app: Application): Shared {
    if ms == [] then s else Process(ProcessAll(s, ms[..|ms| - 1], app), ms[|ms| - 1], app)
  }

  const BAD_FRAME: string := "processing inbound frame failed"

  function Reason(item: Item): string {
    match item
    case Broken(message) => message
    case Payload(_) => BAD_FRAME
  }

  /** `run_inbound_loop` over everything the channel delivers: the readable
      prefix is processed; then a bad item fails everything pending and one
      `TransportClosed` is broadcast, while the end of the stream does
      neither. */
  function LoopAll(s: Shared, items: seq<Item>, app: Application): Shared {
    var n := FirstBad(items);
    var t := ProcessAll(s, Meanings(items[..n]), app);
    if n == |items| then t else Publish(FailAll(t, Reason(items[n])), TransportClosed)
  }

  // ----- one request, and what is processed while it waits

  /** What the client keeps of `pending` and its channels: every entry has an
      open channel of its own, and ids not drawn yet are not in it. */
  ghost predicate Sound(s: Shared) {
    && (forall k :: k in s.pending ==> s.pending[k] < |s.channels| && s.channels[s.pending[k]].Open?)
    && (forall k, l :: k in s.pending && l in s.pending && k != l ==> s.pending[k] != s.pending[l])
    && (forall i :: Integer(i) in s.pending ==> i < s.nextId)
    && s.handshake <= HANDSHAKE_READY
  }

  /** The first response to an id among some messages. */
  function FirstAnswer(ms: seq<Incoming>, id: int): Option<RpcResult> {
    if ms == [] then None
    else
      var m, before := ms[|ms| - 1], FirstAnswer(ms[..|ms| - 1], id);
      if before.Some? then before
      else if m.Response? && m.id == Integer(id) then Some(m.result)
      else None
  }

  function OutcomeOf(r: RpcResult): Outcome {
    match r
    case Value(v) => Got(v)
    case Failed(e) => RpcFailure(e)
  }

  /** What the caller of a request that went out gets, by what the inbound
      channel delivers until its timer fires: the first response to its id
      before the loop breaks, else the failure the loop broke with, else the
      timeout. */
  function AnswerTo(id: int, inbound: seq<Item>): Outcome {
    var n := FirstBad(inbound);
    var first := FirstAnswer(Meanings(inbound[..n]), id);
    if first.Some? then OutcomeOf(first.value)
    else if n < |inbound| then OutcomeOf(TransportFailure(Reason(inbound[n])))
    else TimedOut
  }

  /** The shared state once a request is registered and on the queue. */
  function Asked(s: Shared, name: string, params: Json): Shared {
    Enqueue(Register(s.(nextId := s.nextId + 1), Integer(s.nextId)), RequestFrame(name, s.nextId, params))
  }

  /** `t` came from `s` by processing messages: entries only leave the map,
      closed and filled channels stay as they are, frames are only added. */
  ghost predicate Processed(s: Shared, t: Shared) {
    && Sound(t) && t.handshake == s.handshake && t.nextId == s.nextId && t.outboundOpen == s.outboundOpen
    && |t.channels| == |s.channels| && s.sent <= t.sent
    && (forall k :: k in t.pending ==> k in s.pending && t.pending[k] == s.pending[k])
    && (forall i :: 0 <= i < |s.channels| && !s.channels[i].Open? ==> t.channels[i] == s.channels[i])
  }

  lemma ResolveKeeps(s: Shared, id: RequestId, r: RpcResult)
    requires Sound(s)
    ensures Processed(s, Resolve(s, id, r))
  {
    if id in s.pending {
      assert Resolve(s, id, r)
          == s.(pending := s.pending - {id}, channels := s.channels[s.pending[id] := Filled(r)]);
    }
  }

  lemma EventKeeps(s: Shared, e: ServerEvent)
    requires Sound(s)
    ensures Processed(s, Publish(s, e))
  {
  }

  lemma FrameKeeps(s: Shared, f: Frame)
    requires Sound(s)
    ensures Processed(s, Enqueue(s, f))
  {
  }

  lemma ProcessKeeps(s: Shared, m: Incoming, app: Application)
    requires Sound(s)
    ensures Processed(s, Process(s, m, app))
  {
    match m
    case Response(id, r) => ResolveKeeps(s, id, r);
    case Notification(name, params) => EventKeeps(s, NotificationEvent(name, params));
    case ServerRequest(id, name, params) =>
      EventKeeps(s, RequestEvent(id, name, params));
      EventKeeps(s, TransportClosed);
      FrameKeeps(s, ReplyFrame(id, app.handle(name, params)));
    case Invalid =>
  }

  /** The request's channel holds the first answer to it, and until there is
      one its entry is in the map. */
  ghost predicate Holds(s: Shared, t: Shared, id: int, first: Option<RpcResult>)
    requires Sound(s) && Integer(id) in s.pending
  {
    && Processed(s, t)
    && (first.Some? ==> Integer(id) !in t.pending && t.channels[s.pending[Integer(id)]] == Filled(first.value))
    && (first.None? ==> Integer(id) in t.pending)
  }

  lemma ProcessedTwice(s: Shared, t: Shared, u: Shared)
    requires Processed(s, t) && Processed(t, u)
    ensures Processed(s, u)
  {
  }

  lemma HoldsAfter(s: Shared, t: Shared, m: Incoming, id: int, first: Option<RpcResult>, app: Application)
    requires Sound(s) && Integer(id) in s.pending && Holds(s, t, id, first)
    ensures Holds(s, Process(t, m, app), id,
                  if first.None? && m.Response? && m.id == Integer(id) then Some(m.result) else first)
  {
    ProcessKeeps(t, m, app);
    ProcessedTwice(s, t, Process(t, m, app));
  }

  lemma {:induction false} WhileWaiting(s: Shared, ms: seq<Incoming>, id: int, app: Application)
    requires Sound(s) && Integer(id) in s.pending
    ensures Holds(s, ProcessAll(s, ms, app), id, FirstAnswer(ms, id))
  {
    if ms != [] {
      var front := ms[..|ms| - 1];
      WhileWaiting(s, front, id, app);
      HoldsAfter(s, ProcessAll(s, front, app), ms[|ms| - 1], id, FirstAnswer(front, id), app);
    }
  }

  lemma FailAllKeeps(s: Shared, message: string)
    requires Sound(s)
    ensures Processed(s, FailAll(s, message)) && FailAll(s, message).pending == map[]
    ensures forall k :: k in s.pending ==>
              FailAll(s, message).channels[s.pending[k]] == Filled(TransportFailure(message))
  {
  }

  /** What a waiting caller finds after all of `inbound`. */
  lemma AfterWaiting(s: Shared, inbound: seq<Item>, id: int, app: Application)
    requires Sound(s) && Integer(id) in s.pending
    ensures
      var t, chan, o := LoopAll(s, inbound, app), s.pending[Integer(id)], AnswerTo(id, inbound);
      && Processed(s, t)
      && (o.TimedOut? ==> t.channels[chan].Open? && Integer(id) in t.pending)
      && (!o.TimedOut? ==>
            t.channels[chan].Filled? && o == OutcomeOf(t.channels[chan].result) && Integer(id) !in t.pending)
  {
    var n := FirstBad(inbound);
    var t := ProcessAll(s, Meanings(inbound[..n]), app);
    WhileWaiting(s, Meanings(inbound[..n]), id, app);
    if n < |inbound| {
      FailAllKeeps(t, Reason(inbound[n]));
      ProcessedTwice(s, t, FailAll(t, Reason(inbound[n])));
    }
  }

  /** The caller's own entry is the only new one. */
  predicate OnlyAdds(s: Shared, t: Shared, id: int, chan: nat) {
    Integer(id) !in s.pending && t.pending == s.pending[Integer(id) := chan]
  }

  lemma AskingKeepsSound(s: Shared, name: string, params: Json, w: nat)
    requires Sound(s) && s.outboundOpen
    ensures
      var t := Asked(s, name, params).(written := w);
      Sound(t) && OnlyAdds(s, t, s.nextId, |s.channels|) && |t.channels| == |s.channels| + 1
  {
  }

  lemma NotAskingKeepsSound(s: Shared)
    requires Sound(s)
    ensures
      var id := Integer(s.nextId);
      var t := Forget(Register(s.(nextId := s.nextId + 1), id), id);
      Sound(t) && t.pending == s.pending
  {
  }

  lemma ForgettingKeepsSound(s: Shared, id: int)
    requires Sound(s)
    ensures var t := Forget(s, Integer(id));
      Sound(t) && t.pending == s.pending - {Integer(id)} && t.sent == s.sent && t.handshake == s.handshake
      && t.nextId == s.nextId && t.outboundOpen == s.outboundOpen
  {
  }

  predicate Removes(s: Shared, t: Shared) {
    forall k :: k in t.pending ==> k in s.pending && t.pending[k] == s.pending[k]
  }

  datatype RequestResult = NotReady | AlreadyInitialized | Ended(outcome: Outcome)

  predicate Succeeds(r: RequestResult, decodes: Json -> bool) {
    r.Ended? && r.outcome.Got? && decodes(r.outcome.value)
  }

  const NOTIFY_INITIALIZED: Frame := NotificationFrame(METHOD_INITIALIZED, Obj(map[]))

  class ClientInner {
    var handshake: nat
    var nextId: int
    var pending: map<RequestId, nat>
    var channels: seq<Channel>
    var sent: seq<Frame>
    var written: nat
    var outboundOpen: bool
    var events: seq<ServerEvent>
    var handlers: set<string>

    function View(): Shared
      reads this
    {
      Shared(handshake, nextId, pending, channels, sent, written, outboundOpen, events, handlers)
    }

    constructor ()
      ensures View() == FRESH
    {
      handshake, nextId := HANDSHAKE_NEW, 1;
      pending, channels := map[], [];
      sent, written, outboundOpen := [], 0, true;
      events, handlers := [], {};
    }

    /** `handshake_state.fetch_max(v)` */
    method FetchMaxHandshake(v: nat)
      modifies this`handshake
      ensures View() == FetchMax(old(View()), v)
    {
      if handshake < v { handshake := v; }
    }

    /** `handshake_state.store(v)` */
    method StoreHandshake(v: nat)
      modifies this`handshake
      ensures View() == Store(old(View()), v)
    {
      handshake := v;
    }

    /** `next_id.fetch_add(1)` */
    method DrawId() returns (id: int)
      modifies this`nextId
      ensures id == old(nextId) && View() == old(View()).(nextId := id + 1)
    {
      id := nextId;
      nextId := nextId + 1;
    }

    method DropOldSender(ch: nat)
      modifies this`channels
      ensures View() == DropSender(old(View()), ch)
    {
      if ch < |channels| && channels[ch].Open? {
        channels := channels[ch := Closed];
      }
    }

    /** `oneshot::channel()` and `pending.lock().await.insert(id, tx)` */
    method InsertPending(id: RequestId) returns (chan: nat)
      modifies this`pending, this`channels
      ensures View() == Register(old(View()), id)
      ensures chan == |old(channels)| && pending[id] == chan && channels[chan] == Open
    {
      if id in pending { DropOldSender(pending[id]); }
      chan := |channels|;
      channels := channels + [Open];
      pending := pending[id := chan];
    }

    /** `pending.lock().await.remove(&id)`, the sender dropped. */
    method RemovePending(id: RequestId)
      modifies this`pending, this`channels
      ensures View() == Forget(old(View()), id)
    {
      if id in pending {
        DropOldSender(pending[id]);
        pending := pending - {id};
      }
    }

    method UseSender(ch: nat, r: RpcResult)
      modifies this`channels
      ensures View() == Fill(old(View()), ch, r)
    {
      if ch < |channels| && channels[ch].Open? {
        channels := channels[ch := Filled(r)];
      }
    }

    /** `outbound.send(frame).await`: it waits until the writer has made room,
        and fails once the receiver is gone. */
    method SendMessage(f: Frame) returns (ok: bool)
      modifies this`sent, this`written
      ensures ok == outboundOpen && old(written) <= written
      ensures View() == Enqueue(old(View()), f).(written := written)
    {
      ok := outboundOpen;
      if !outboundOpen { return; }
      while |sent| >= written + OUTBOUND_CAPACITY
        invariant sent == old(sent) && old(written) <= written
        decreases |sent| - written
      {
        written := written + 1;
      }
      sent := sent + [f];
    }

    /** `fail_all_pending` */
    method FailAllPending(message: string)
      modifies this`pending, this`channels
      ensures View() == FailAll(old(View()), message)
    {
      var entries := pending.Values;
      pending := map[];
      while entries != {}
        invariant FailEach(View(), entries, message) == FailAll(old(View()), message)
        decreases entries
      {
        var chan :| chan in entries;
        FailOneThenRest(View(), entries, chan, message);
        UseSender(chan, TransportFailure(message));
        entries := entries - {chan};
      }
      assert FailEach(View(), {}, message).channels == channels;
    }

    /** `try_auto_handle_server_request`, and the publication when it returns
        false. */
    method ServeRequest(id: RequestId, name: string, params: Json, app: Application)
      modifies this`sent, this`written, this`events
      ensures View() == Serve(old(View()), id, name, params, app).(written := written)
      ensures
        var handled := app.decodes(name, params) && name in SERVER_REQUESTS && name in handlers;
        && (!handled ==> sent == old(sent) && events == old(events) + [RequestEvent(id, name, params)])
        && (handled && !outboundOpen ==> sent == old(sent) && events == old(events) + [TransportClosed])
        && (handled && outboundOpen ==>
              && events == old(events) && sent[..|sent| - 1] == old(sent)
              && (ValidId(id) ==> IsAnswer(sent[|sent| - 1], id, app.handle(name, params))))
    {
      if ValidId(id) { ReplySays(id, app.handle(name, params)); }
      if app.decodes(name, params) && name in SERVER_REQUESTS && name in handlers {
        var ok := SendMessage(ReplyFrame(id, app.handle(name, params)));
        if !ok { events := events + [TransportClosed]; }
      } else {
        events := events + [RequestEvent(id, name, params)];
      }
    }

    /** `process_incoming_value`; false stands for its error. */
    method ProcessIncomingValue(v: Json, app: Application) returns (ok: bool)
      modifies this`pending, this`channels, this`sent, this`written, this`events
      ensures ok <==> !ClassifyIncoming(v).Invalid?
      ensures View() == Process(old(View()), ClassifyIncoming(v), app).(written := written)
    {
      var m := ClassifyIncoming(v);
      ok := !m.Invalid?;
      match m {
        case Response(id, r) =>
          if id in pending {
            var chan := pending[id];
            pending := pending - {id};
            UseSender(chan, r);
          }
        case Notification(name, params) => events := events + [NotificationEvent(name, params)];
        case ServerRequest(id, name, params) => ServeRequest(id, name, params, app);
        case Invalid =>
      }
    }

    /** The end of `run_inbound_loop` on an item it cannot use. */
    method Break(item: Item, app: Application)
      requires !Readable(item)
      modifies this`pending, this`channels, this`sent, this`written, this`events
      ensures View() == Publish(FailAll(old(View()), Reason(item)), TransportClosed).(written := written)
    {
      if item.Payload? {
        var ok := ProcessIncomingValue(item.value, app);
        assert View() == old(View()).(written := written);
      }
      FailAllPending(Reason(item));
      events := events + [TransportClosed];
    }

    /** The readable items before `i` have been processed, starting from `s`. */
    ghost predicate LoopedTo(s: Shared, items: seq<Item>, i: nat, app: Application)
      requires i <= |items|
      reads this
    {
      View() == ProcessAll(s, Meanings(items[..i]), app).(written := written)
    }

    /** One turn of the loop in `run_inbound_loop`. */
    method ProcessNext(items: seq<Item>, i: nat, app: Application, ghost s: Shared)
      requires i < |items| && Readable(items[i]) && LoopedTo(s, items, i, app)
      modifies this`pending, this`channels, this`sent, this`written, this`events
      ensures LoopedTo(s, items, i + 1, app)
    {
      ghost var w := written;
      var ok := ProcessIncomingValue(items[i].value, app);
      NextItem(s, items, i, app, w, written);
    }

    /** `run_inbound_loop` */
    method RunInboundLoop(items: seq<Item>, app: Application)
      modifies this`pending, this`channels, this`sent, this`written, this`events
      ensures View() == LoopAll(old(View()), items, app).(written := written)
    {
      ghost var s := View();
      var i := 0;
      while i < |items| && Readable(items[i])
        invariant 0 <= i <= |items| && forall j :: 0 <= j < i ==> Readable(items[j])
        invariant LoopedTo(s, items, i, app)
      {
        ProcessNext(items, i, app, s);
        i := i + 1;
      }
      ghost var w := written;
      if i < |items| {
        Break(items[i], app);
        LoopBreaks(s, items, i, app, w, written);
      } else {
        LoopEnds(s, items, app);
      }
    }
  }

  // ----- callers

  /** `request_value_internal`; `inbound` is what the inbound loop processes
      until the answer is seen or the timer fires. The caller's own entry is
      never left behind. */
  method RequestValueInternal(
    inner: ClientInner, name: string, params: Json, requiresReady: bool, inbound: seq<Item>, app: Application)
    returns (r: RequestResult)
    requires Sound(inner.View())
    modifies inner`nextId, inner`pending, inner`channels, inner`sent, inner`written, inner`events
    ensures Sound(inner.View())
    ensures r == if requiresReady && inner.handshake < HANDSHAKE_READY then NotReady
                 else if !requiresReady && inner.handshake >= HANDSHAKE_INITIALIZED then AlreadyInitialized
                 else Ended(if inner.outboundOpen then AnswerTo(old(inner.nextId), inbound) else SendFailed)
    ensures !r.Ended? ==> inner.View() == old(inner.View())
    ensures r.Ended? ==> inner.nextId == old(inner.nextId) + 1
    ensures Removes(old(inner.View()), inner.View())
    ensures r == Ended(SendFailed) ==> inner.pending == old(inner.pending) && inner.sent == old(inner.sent)
    ensures r.Ended? && inner.outboundOpen ==>
              old(inner.sent) + [RequestFrame(name, old(inner.nextId), params)] <= inner.sent
  {
    if requiresReady && inner.handshake < HANDSHAKE_READY { return NotReady; }
    if !requiresReady && inner.handshake >= HANDSHAKE_INITIALIZED { return AlreadyInitialized; }
    var id, chan, ok := Ask(inner, name, params);
    if !ok { return Ended(SendFailed); }
    var o := AwaitAnswer(inner, id, chan, inbound, app);
    r := Ended(o);
  }

  /** The part of `request_value_internal` before the wait; a request that
      cannot be sent leaves no entry. */
  method Ask(inner: ClientInner, name: string, params: Json) returns (id: int, chan: nat, ok: bool)
    requires Sound(inner.View())
    modifies inner`nextId, inner`pending, inner`channels, inner`sent, inner`written
    ensures Sound(inner.View()) && ok == inner.outboundOpen && id == old(inner.nextId) && inner.nextId == id + 1
    ensures ok ==> OnlyAdds(old(inner.View()), inner.View(), id, chan)
    ensures ok ==> inner.sent == old(inner.sent) + [RequestFrame(name, id, params)]
    ensures !ok ==> inner.pending == old(inner.pending) && inner.sent == old(inner.sent)
  {
    ghost var start := inner.View();
    id := inner.DrawId();
    chan := inner.InsertPending(Integer(id));
    ok := inner.SendMessage(RequestFrame(name, id, params));
    if ok {
      AskingKeepsSound(start, name, params, inner.written);
      assert inner.View() == Asked(start, name, params).(written := inner.written);
    } else {
      inner.RemovePending(Integer(id));
      NotAskingKeepsSound(start);
    }
  }

  /** The wait in `request_value_internal`, for the answer or the timer. */
  method AwaitAnswer(inner: ClientInner, id: int, chan: nat, inbound: seq<Item>, app: Application) returns (o: Outcome)
    requires Sound(inner.View()) && Integer(id) in inner.pending && inner.pending[Integer(id)] == chan
    modifies inner`pending, inner`channels, inner`sent, inner`written, inner`events
    ensures Sound(inner.View()) && o == AnswerTo(id, inbound)
    ensures Removes(old(inner.View()), inner.View()) && Integer(id) !in inner.pending
    ensures old(inner.sent) <= inner.sent
  {
    inner.RunInboundLoop(inbound, app);
    AfterWaiting(old(inner.View()), inbound, id, app);
    match inner.channels[chan] {
      case Filled(result) => o := OutcomeOf(result);
      case Closed => o := ChannelClosed;
      case Open =>
        ForgettingKeepsSound(inner.View(), id);
        inner.RemovePending(Integer(id));
        o := TimedOut;
    }
  }

  /** `initialize`: it succeeds only on a connection that is not initialized,
      and leaves it initialized. */
  method Initialize(inner: ClientInner, params: Json, inbound: seq<Item>, app: Application, decodes: Json -> bool)
    returns (ok: bool)
    requires Sound(inner.View())
    modifies inner
    ensures Sound(inner.View())
    ensures ok <==> && old(inner.handshake) < HANDSHAKE_INITIALIZED && inner.outboundOpen
                    && Succeeds(Ended(AnswerTo(old(inner.nextId), inbound)), decodes)
    ensures inner.outboundOpen == old(inner.outboundOpen)
    ensures inner.handshake == if ok then HANDSHAKE_INITIALIZED else old(inner.handshake)
    ensures ok ==> old(inner.sent) + [RequestFrame(METHOD_INITIALIZE, old(inner.nextId), params)] <= inner.sent
  {
    var r := RequestValueInternal(inner, METHOD_INITIALIZE, params, false, inbound, app);
    ok := Succeeds(r, decodes);
    if ok { inner.FetchMaxHandshake(HANDSHAKE_INITIALIZED); }
  }

  /** `initialized`: it needs an initialized connection and makes it ready. */
  method Initialized(inner: ClientInner) returns (ok: bool)
    requires Sound(inner.View())
    modifies inner
    ensures Sound(inner.View())
    ensures ok <==> old(inner.handshake) >= HANDSHAKE_INITIALIZED && inner.outboundOpen
    ensures inner.handshake == if ok then HANDSHAKE_READY else old(inner.handshake)
    ensures inner.sent == old(inner.sent) + if ok then [NOTIFY_INITIALIZED] else []
    ensures inner.outboundOpen == old(inner.outboundOpen) && inner.pending == old(inner.pending)
  {
    if inner.handshake < HANDSHAKE_INITIALIZED { return false; }
    ok := inner.SendMessage(NOTIFY_INITIALIZED);
    if ok { inner.FetchMaxHandshake(HANDSHAKE_READY); }
  }

  /** `ensure_ready_with`, by a caller that is alone. It returns at once when
      ready; otherwise it succeeds exactly if the missing messages go out and
      `initialize`, if it is missing, is answered with a result that decodes.
      A failed `initialize` makes the connection new again. */
  method EnsureReadyWith(inner: ClientInner, params: Json, inbound: seq<Item>, app: Application, decodes: Json -> bool)
    returns (ok: bool)
    requires Sound(inner.View())
    modifies inner
    ensures Sound(inner.View()) && inner.outboundOpen == old(inner.outboundOpen)
    ensures
      var was := old(inner.handshake);
      var answered := was >= HANDSHAKE_INITIALIZED
                      || (inner.outboundOpen && Succeeds(Ended(AnswerTo(old(inner.nextId), inbound)), decodes));
      && (ok <==> was == HANDSHAKE_READY || (inner.outboundOpen && answered))
      && inner.handshake == (if ok then HANDSHAKE_READY else if answered then HANDSHAKE_INITIALIZED else HANDSHAKE_NEW)
    ensures old(inner.handshake) == HANDSHAKE_READY ==> inner.View() == old(inner.View())
    ensures ok && old(inner.handshake) < HANDSHAKE_READY ==>
              inner.sent != [] && inner.sent[|inner.sent| - 1] == NOTIFY_INITIALIZED
    ensures ok && old(inner.handshake) < HANDSHAKE_INITIALIZED ==>
              old(inner.sent) + [RequestFrame(METHOD_INITIALIZE, old(inner.nextId), params)] < inner.sent
  {
    if inner.handshake == HANDSHAKE_READY { return true; }
    if inner.handshake < HANDSHAKE_INITIALIZED {
      inner.StoreHandshake(HANDSHAKE_INITIALIZING);
      var r := RequestValueInternal(inner, METHOD_INITIALIZE, params, false, inbound, app);
      if !Succeeds(r, decodes) {
        inner.StoreHandshake(HANDSHAKE_NEW);
        return false;
      }
      inner.StoreHandshake(HANDSHAKE_INITIALIZED);
    }
    ok := inner.SendMessage(NOTIFY_INITIALIZED);
    if ok { inner.StoreHandshake(HANDSHAKE_READY); }
  }

  /** Where the loop breaks, whatever has been written by then. */
  lemma LoopBreaks(s: Shared, items: seq<Item>, n: nat, app: Application, w: nat, v: nat)
    requires n < |items| && (forall j :: 0 <= j < n ==> Readable(items[j])) && !Readable(items[n])
    ensures
      var t := ProcessAll(s, Meanings(items[..n]), app).(written := w);
      Publish(FailAll(t, Reason(items[n])), TransportClosed).(written := v) == LoopAll(s, items, app).(written := v)
  {
    PrefixIsFirstBad(items, n);
    var t := ProcessAll(s, Meanings(items[..n]), app);
    assert FailAll(t.(written := w), Reason(items[n])) == FailAll(t, Reason(items[n])).(written := w);
  }

  lemma LoopEnds(s: Shared, items: seq<Item>, app: Application)
    requires forall j :: 0 <= j < |items| ==> Readable(items[j])
    ensures LoopAll(s, items, app) == ProcessAll(s, Meanings(items[..|items|]), app)
  {
    PrefixIsFirstBad(items, |items|);
  }

  lemma PrefixIsFirstBad(items: seq<Item>, n: nat)
    requires n <= |items| && (forall j :: 0 <= j < n ==> Readable(items[j]))
    requires n < |items| ==> !Readable(items[n])
    ensures FirstBad(items) == n
  {
    var k := FirstBad(items);
  }

  lemma MeaningsGrow(items: seq<Item>, item: Item)
    requires item.Payload?
    ensures Meanings(items + [item]) == Meanings(items) + [ClassifyIncoming(item.value)]
  {
    assert (items + [item])[..|items|] == items;
  }

  lemma ProcessGrows(s: Shared, ms: seq<Incoming>, m: Incoming, app: Application)
    ensures ProcessAll(s, ms + [m], app) == Process(ProcessAll(s, ms, app), m, app)
  {
    assert (ms + [m])[..|ms|] == ms;
  }

  /** How far the writer has got does not change what a frame does. */
  lemma WrittenIsIdle(s: Shared, m: Incoming, app: Application, w: nat, v: nat)
    ensures Process(s.(written := w), m, app).(written := v) == Process(s, m, app).(written := v)
  {
  }

  lemma NextItem(s: Shared, items: seq<Item>, i: nat, app: Application, w: nat, v: nat)
    requires i < |items| && items[i].Payload?
    ensures
      var m, before := ClassifyIncoming(items[i].value), ProcessAll(s, Meanings(items[..i]), app);
      Process(before.(written := w), m, app).(written := v)
          == ProcessAll(s, Meanings(items[..i + 1]), app).(written := v)
  {
    assert items[..i + 1] == items[..i] + [items[i]];
    MeaningsGrow(items[..i], items[i]);
    ProcessGrows(s, Meanings(items[..i]), ClassifyIncoming(items[i].value), app);
    WrittenIsIdle(ProcessAll(s, Meanings(items[..i]), app), ClassifyIncoming(items[i].value), app, w, v);
  }

  // ----- the object and the transition system say the same

  /** A caller that passes the gate: its four steps up to the wait put the
      shared state where the object's operations do. */
  lemma AskingIsSteps(s: State, c: nat, call: Call, choice: Choice) returns (s1: State, s2: State, s3: State, s4: State)
    requires PcOf(s, c) == Gate(call) && s.sh.outboundOpen && CanSend(s.sh)
    requires if RequiresReady(call) then s.sh.handshake >= HANDSHAKE_READY
             else s.sh.handshake < HANDSHAKE_INITIALIZED && (call.purpose.Raw? ==> call.name == METHOD_INITIALIZE)
    requires Integer(s.sh.nextId) !in s.sh.pending
    ensures AdvanceNext(s, c, choice) == Some(s1) && AdvanceNext(s1, c, choice) == Some(s2)
    ensures AdvanceNext(s2, c, choice) == Some(s3) && AdvanceNext(s3, c, choice) == Some(s4)
    ensures s4.sh == Asked(s.sh, call.name, call.params)
    ensures PcOf(s4, c) == Await(call, s.sh.nextId, |s.sh.channels|)
  {
    var id, chan := s.sh.nextId, |s.sh.channels|;
    s1 := At(s, c, AllocId(call));
    s2 := AdvanceNext(s1, c, choice).value;
    s3 := AdvanceNext(s2, c, choice).value;
    assert PcOf(s2, c) == Insert(call, id) && PcOf(s3, c) == Send(call, id, chan);
    s4 := AdvanceNext(s3, c, choice).value;
  }

  /** A caller that waits: a filled channel gives it its outcome and touches
      nothing shared; with an open one the timer takes it out of the map. */
  lemma WaitingIsSteps(s: State, c: nat, call: Call, id: int, chan: nat, decodes: bool) returns (t: State)
    requires PcOf(s, c) == Await(call, id, chan) && chan < |s.sh.channels| && !s.sh.channels[chan].Closed?
    ensures s.sh.channels[chan].Filled? ==>
              && AdvanceNext(s, c, Choice(false, decodes)) == Some(t) && t.sh == s.sh
              && id in t.outcomes && t.outcomes[id] == OutcomeOf(s.sh.channels[chan].result)
    ensures s.sh.channels[chan].Open? ==>
              && AdvanceNext(s, c, Choice(true, decodes)) == Some(At(s, c, Expire(call, id, chan)))
              && AdvanceNext(At(s, c, Expire(call, id, chan)), c, Choice(true, decodes)) == Some(t)
              && t.sh == Forget(s.sh, Integer(id)) && id in t.outcomes && t.outcomes[id] == TimedOut
  {
    if s.sh.channels[chan].Filled? {
      t := AdvanceNext(s, c, Choice(false, decodes)).value;
    } else {
      t := AdvanceNext(At(s, c, Expire(call, id, chan)), c, Choice(true, decodes)).value;
    }
  }

  /** A frame that needs no handler: one step of the loop is one call. */
  lemma ReceiveIsProcess(s: State, item: Item, app: Application)
    requires s.loop.Receiving? && Readable(item) && !ClassifyIncoming(item.value).ServerRequest?
    ensures ReceiveNext(s, item).sh == Process(s.sh, ClassifyIncoming(item.value), app)
    ensures ReceiveNext(s, item).loop.Receiving?
  {
  }

  /** A server request: the loop's steps from its arrival to its effect. */
  lemma ServingIsProcess(s: State, item: Item, id: RequestId, name: string, params: Json, app: Application)
      returns (b: State, c: State, t: State)
    requires s.loop.Receiving? && Readable(item) && ClassifyIncoming(item.value) == ServerRequest(id, name, params)
    requires CanSend(s.sh)
    ensures
      var a, reply := ReceiveNext(s, item), ReplyFrame(id, app.handle(name, params));
      && a.loop == LookUpHandler(id, name, params)
      && LoopNext(a, FindHandler(app.decodes(name, params))) == Some(b)
      && (b.loop.Handling? ==> LoopNext(b, HandlerDone(reply)) == Some(c) && LoopNext(c, SendReply) == Some(t))
      && (!b.loop.Handling? ==> t == b)
    ensures t.loop.Receiving? && t.sh == Process(s.sh, ServerRequest(id, name, params), app)
  {
    var a := ReceiveNext(s, item);
    assert a.sh == s.sh && a.loop == LookUpHandler(id, name, params);
    b := LoopNext(a, FindHandler(app.decodes(name, params))).value;
    if b.loop.Handling? {
      var reply := ReplyFrame(id, app.handle(name, params));
      c := Answered(b, id, name, params, reply);
      t := ReplySent(c, reply);
    } else {
      c, t := b, b;
    }
  }

  lemma Answered(b: State, id: RequestId, name: string, params: Json, reply: Frame) returns (c: State)
    requires b.loop == Handling(id, name, params) && IsReplyTo(reply, id)
    requires reply.ErrorFrame? ==> reply.error.code == RPC_ERROR_CODE_HANDLER_FAILED && reply.error.data.None?
    ensures LoopNext(b, HandlerDone(reply)) == Some(c) && c == b.(loop := Replying(reply))
  {
    c := b.(loop := Replying(reply));
  }

  lemma ReplySent(c: State, reply: Frame) returns (t: State)
    requires c.loop == Replying(reply) && CanSend(c.sh)
    ensures LoopNext(c, SendReply) == Some(t) && t.loop.Receiving?
    ensures t.sh == if c.sh.outboundOpen then Enqueue(c.sh, reply) else Publish(c.sh, TransportClosed)
  {
    t := LoopNext(c, SendReply).value;
  }

  lemma RestOfOrder(order: seq<nat>)
    requires order != [] && forall i, j :: 0 <= i < j < |order| ==> order[i] != order[j]
    ensures order[0] in order && (set x | x in order[1..]) == (set x | x in order) - {order[0]}
  {
    assert order == [order[0]] + order[1..];
  }

  /** Failing entry by entry, in any order, ends where `FailAll` does. */
  lemma {:induction false} FailingIsFailAll(s: State, order: seq<nat>)
    requires s.loop.Failing? && s.loop.entries == (set x | x in order)
    requires forall i, j :: 0 <= i < j < |order| ==> order[i] != order[j]
    ensures
      var steps := seq(|order|, i requires 0 <= i < |order| => FailOne(order[i]));
      var t := Run(s, steps);
      && t.Some? && t.value.loop == Failing({}, s.loop.message)
      && t.value.sh == FailEach(s.sh, s.loop.entries, s.loop.message)
    decreases |order|
  {
    var steps := seq(|order|, i requires 0 <= i < |order| => FailOne(order[i]));
    if order == [] {
      assert FailEach(s.sh, {}, s.loop.message).channels == s.sh.channels;
    } else {
      var step, rest := FailOne(order[0]), order[1..];
      var t := LoopNext(s, step).value;
      RestOfOrder(order);
      FailingIsFailAll(t, rest);
      FailOneThenRest(s.sh, s.loop.entries, order[0], s.loop.message);
      var more := seq(|rest|, i requires 0 <= i < |rest| => FailOne(rest[i]));
      assert steps == [step] + more;
      RunFrom(s, step, more);
    }
  }

  /** A bad item: the loop's steps from its arrival, through the entries in any
      order, to its stop add up to the end of the object's loop. */
  lemma BreakingIsSteps(s: State, item: Item, order: seq<nat>) returns (steps: seq<Step>, t: State)
    requires s.loop.Receiving? && !Readable(item)
    requires s.sh.pending.Values == (set x | x in order)
    requires forall i, j :: 0 <= i < j < |order| ==> order[i] != order[j]
    ensures steps == seq(|order|, i requires 0 <= i < |order| => FailOne(order[i])) + [Announce]
    ensures Run(ReceiveNext(s, item), steps) == Some(t) && t.loop == Stopped(true)
    ensures t.sh == Publish(FailAll(s.sh, Reason(item)), TransportClosed)
  {
    var a := ReceiveNext(s, item);
    assert a.loop == Failing(s.sh.pending.Values, Reason(item)) && a.sh == s.sh.(pending := map[]);
    var fails := seq(|order|, i requires 0 <= i < |order| => FailOne(order[i]));
    FailingIsFailAll(a, order);
    steps := fails + [Announce];
    assert steps[..|fails|] == fails;
    t := LoopNext(Run(a, fails).value, Announce).value;
  }

  // ----- the answer to a request, item by item

  /** Item `i` is the first response to the request. */
  predicate FirstResponseAt(inbound: seq<Item>, id: int, i: nat, r: RpcResult) {
    && i < |inbound| && inbound[i].Payload? && ClassifyIncoming(inbound[i].value) == Response(Integer(id), r)
    && forall j :: 0 <= j < i ==> !Responds(inbound[j], id)
  }

  predicate Responds(item: Item, id: int) {
    && item.Payload? && ClassifyIncoming(item.value).Response?
    && ClassifyIncoming(item.value).id == Integer(id)
  }

  lemma {:induction false} FirstAnswerAt(items: seq<Item>, id: int, i: nat, r: RpcResult)
    requires FirstResponseAt(items, id, i, r)
    ensures FirstAnswer(Meanings(items), id) == Some(r)
  {
    var front, last := items[..|items| - 1], items[|items| - 1];
    assert items == front + [last];
    MeaningsLast(items);
    if i < |front| {
      FirstAnswerAt(front, id, i, r);
    } else {
      NoAnswer(front, id);
    }
  }

  lemma {:induction false} NoAnswer(items: seq<Item>, id: int)
    requires forall j :: 0 <= j < |items| ==> !Responds(items[j], id)
    ensures FirstAnswer(Meanings(items), id) == None
  {
    if items != [] {
      MeaningsLast(items);
      NoAnswer(items[..|items| - 1], id);
    }
  }

  lemma MeaningsLast(items: seq<Item>)
    requires items != []
    ensures
      var ms, last := Meanings(items), items[|items| - 1];
      && ms != [] && ms[..|ms| - 1] == Meanings(items[..|items| - 1])
      && ms[|ms| - 1] == if last.Payload? then ClassifyIncoming(last.value) else Invalid
  {
  }

  /** What a request that went out gets, if item `n` is the first that cannot
      be used: the first response before it; without one the failure with the
      reason; and the timeout if there is no such item either. */
  lemma AnswerIs(id: int, inbound: seq<Item>, n: nat, i: nat, r: RpcResult)
    requires n <= |inbound| && (forall j :: 0 <= j < n ==> Readable(inbound[j]))
    requires n < |inbound| ==> !Readable(inbound[n])
    ensures FirstResponseAt(inbound[..n], id, i, r) ==>
              AnswerTo(id, inbound) == if r.Value? then Got(r.value) else RpcFailure(r.error)
    ensures (forall j :: 0 <= j < n ==> !Responds(inbound[j], id)) ==>
              AnswerTo(id, inbound) ==
                if n == |inbound| then TimedOut
                else
                  var reason := if inbound[n].Broken? then inbound[n].message else "processing inbound frame failed";
                  RpcFailure(RpcError(-32098, reason, None))
  {
    PrefixIsFirstBad(inbound, n);
    if FirstResponseAt(inbound[..n], id, i, r) { FirstAnswerAt(inbound[..n], id, i, r); }
    if forall j :: 0 <= j < n ==> !Responds(inbound[j], id) { NoAnswer(inbound[..n], id); }
  }

  /** A request succeeds exactly with a result that decodes. */
  lemma SucceedsIff(r: RequestResult, decodes: Json -> bool)
    ensures Succeeds(r, decodes) <==> exists v :: r == Ended(Got(v)) && decodes(v)
  {
    if r.Ended? && r.outcome.Got? { assert decodes(r.outcome.value) <==> Succeeds(r, decodes); }
  }
}
