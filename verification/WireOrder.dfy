/** Order on the wire, in every run, including runs that mix explicit
    handshakes, raw calls and `ensure_ready`. */
module WireOrder {
  import opened Options
  import opened Json
  import opened Rpc
  import opened Inner
  import opened Engine
  import opened Correlation

  /** Frames that may go out only once the connection is ready. */
  predicate Gated(f: Frame) {
    || (f.RequestFrame? && f.name != METHOD_INITIALIZE)
    || (f.NotificationFrame? && f.name != METHOD_INITIALIZED)
  }

  predicate IsInitialized(e: Entry) {
    e.Sent? && e.frame.NotificationFrame? && e.frame.name == METHOD_INITIALIZED
  }

  predicate IsInitializeRequest(e: Entry, id: int) {
    e.Sent? && e.frame.RequestFrame? && e.frame.name == METHOD_INITIALIZE && e.frame.id == id
  }

  /** An `initialize` request has succeeded. */
  predicate InitSeen(log: seq<Entry>) {
    log != [] && (InitSeen(log[..|log| - 1]) || log[|log| - 1].InitOk?)
  }

  /** ... and an `initialized` notification went out after that. */
  predicate HandshakeDone(log: seq<Entry>) {
    log != [] && (HandshakeDone(log[..|log| - 1]) || (IsInitialized(log[|log| - 1]) && InitSeen(log[..|log| - 1])))
  }

  predicate InitializeSent(log: seq<Entry>, id: int) {
    log != [] && (InitializeSent(log[..|log| - 1], id) || IsInitializeRequest(log[|log| - 1], id))
  }

  /** Every gated frame was sent after the handshake; every success was the
      first response to an `initialize` request sent before it. */
  ghost predicate Ordered(log: seq<Entry>) {
    log != [] ==>
      var front, e := log[..|log| - 1], log[|log| - 1];
      && Ordered(front)
      && (e.Sent? && Gated(e.frame) ==> HandshakeDone(front))
      && (e.InitOk? ==>
            InitializeSent(front, e.id) && Mailbox(front, e.id).First? && Mailbox(front, e.id).result.Value?)
  }

  /** What a caller at `pc` may assume about the history. */
  ghost predicate Cleared(log: seq<Entry>, pc: Pc) {
    match pc
    case Gate(call) => Proper(call)
    case AllocId(call) => CallCleared(log, call)
    case Insert(call, _) => CallCleared(log, call)
    case Send(call, _, _) => CallCleared(log, call)
    case Unsend(call, _, _) => CallCleared(log, call)
    case Await(call, id, _) => CallCleared(log, call) && (call.name == METHOD_INITIALIZE ==> InitializeSent(log, id))
    case Expire(call, _, _) => CallCleared(log, call)
    case InitializeMax => InitSeen(log)
    case NoteSend(name, _, marksReady) =>
      && (name != METHOD_INITIALIZED ==> HandshakeDone(log))
      && (marksReady ==> name == METHOD_INITIALIZED && InitSeen(log))
    case InitializedMax => HandshakeDone(log)
    case ReplySend(reply) => !Gated(reply)
    case EnsureSet => InitSeen(log)
    case EnsureNotify => InitSeen(log)
    case EnsureReady => HandshakeDone(log)
    case _ => true
  }

  predicate Proper(call: Call) {
    !call.purpose.Raw? ==> call.name == METHOD_INITIALIZE
  }

  ghost predicate CallCleared(log: seq<Entry>, call: Call) {
    Proper(call) && (call.name != METHOD_INITIALIZE ==> HandshakeDone(log))
  }

  ghost predicate StateCleared(log: seq<Entry>, handshake: nat) {
    && (handshake >= HANDSHAKE_INITIALIZED ==> InitSeen(log))
    && (handshake >= HANDSHAKE_READY ==> HandshakeDone(log))
  }

  ghost predicate WireInv(s: State) {
    && Ordered(s.log)
    && StateCleared(s.log, s.sh.handshake)
    && (forall c :: Cleared(s.log, PcOf(s, c)))
    && (s.loop.Replying? ==> !Gated(s.loop.reply))
  }

  lemma ClearedPersists(log: seq<Entry>, log': seq<Entry>)
    requires Extends(log, log')
    ensures InitSeen(log) ==> InitSeen(log')
    ensures HandshakeDone(log) ==> HandshakeDone(log')
    ensures forall id :: InitializeSent(log, id) ==> InitializeSent(log', id)
    ensures forall pc :: Cleared(log, pc) ==> Cleared(log', pc)
    ensures forall h :: StateCleared(log, h) ==> StateCleared(log', h)
  {
    if log' != log {
      assert log' == log + [log'[|log|]];
    }
  }

  lemma {:induction false} DoneIsSeen(log: seq<Entry>)
    requires HandshakeDone(log)
    ensures InitSeen(log)
  {
    if HandshakeDone(log[..|log| - 1]) {
      DoneIsSeen(log[..|log| - 1]);
    }
  }

  /** Writing `e` down keeps the order. */
  ghost predicate MayAppend(log: seq<Entry>, e: Entry) {
    && (e.Sent? && Gated(e.frame) ==> HandshakeDone(log))
    && (e.InitOk? ==> InitializeSent(log, e.id) && Mailbox(log, e.id).First? && Mailbox(log, e.id).result.Value?)
  }

  lemma Appended(log: seq<Entry>, e: Entry)
    requires Ordered(log) && MayAppend(log, e)
    ensures Ordered(log + [e]) && Extends(log, log + [e])
    ensures InitSeen(log + [e]) <==> InitSeen(log) || e.InitOk?
    ensures HandshakeDone(log + [e]) <==> HandshakeDone(log) || (IsInitialized(e) && InitSeen(log))
  {
    assert (log + [e])[..|log|] == log;
  }

  /** A caller's step keeps the order if it is cleared where it arrives and
      what it writes down is in order. */
  ghost predicate Lawful(s: State, t: State, c: nat) {
    && Extends(s.log, t.log) && Ordered(t.log)
    && StateCleared(t.log, t.sh.handshake)
    && t.loop == s.loop
    && c in t.callers && t.callers == s.callers[c := t.callers[c]] && Cleared(t.log, t.callers[c])
  }

  lemma LawfulKeepsInv(s: State, t: State, c: nat)
    requires WireInv(s) && Lawful(s, t, c)
    ensures WireInv(t)
  {
    ClearedPersists(s.log, t.log);
    forall d ensures Cleared(t.log, PcOf(t, d)) {
      assert Cleared(s.log, PcOf(s, d));
    }
  }

  lemma EndLawful(s: State, u: State, c: nat, call: Call, id: int, o: Outcome, decodes: bool)
    requires WireInv(s) && CallCleared(s.log, call)
    requires u.log == s.log && u.callers == s.callers && u.loop == s.loop && u.sh.handshake == s.sh.handshake
    requires o.Got? && call.name == METHOD_INITIALIZE ==>
               InitializeSent(s.log, id) && Mailbox(s.log, id) == First(Value(o.value))
    ensures Lawful(s, EndRequest(u, c, call, id, o, decodes), c)
  {
    if o.Got? && decodes && !call.purpose.Raw? {
      Appended(s.log, InitOk(id));
    }
  }

  lemma AwaitLawful(s: State, c: nat, choice: Choice)
    requires Good(s) && WireInv(s) && PcOf(s, c).Await? && RequestNext(s, c, PcOf(s, c), choice).Some?
    ensures Lawful(s, RequestNext(s, c, PcOf(s, c), choice).value, c)
  {
    var Await(call, id, chan) := PcOf(s, c);
    assert Cleared(s.log, PcOf(s, c));
    assert Heard(s, StakeOf(s, c));
    match s.sh.channels[chan]
    case Open =>
    case Filled(Value(v)) => EndLawful(s, s, c, call, id, Got(v), choice.decodes);
    case Filled(Failed(e)) => EndLawful(s, s, c, call, id, RpcFailure(e), choice.decodes);
  }

  lemma LeaveLawful(s: State, c: nat, choice: Choice)
    requires WireInv(s) && (PcOf(s, c).Unsend? || PcOf(s, c).Expire?)
    ensures Lawful(s, RequestNext(s, c, PcOf(s, c), choice).value, c)
  {
    var pc := PcOf(s, c);
    assert Cleared(s.log, pc);
    var o := if pc.Unsend? then SendFailed else TimedOut;
    EndLawful(s, s.(sh := Forget(s.sh, Integer(pc.id))), c, pc.call, pc.id, o, choice.decodes);
  }

  lemma BeginLawful(s: State, c: nat, choice: Choice)
    requires WireInv(s) && (PcOf(s, c).Gate? || PcOf(s, c).AllocId? || PcOf(s, c).Insert?)
    requires RequestNext(s, c, PcOf(s, c), choice).Some?
    ensures Lawful(s, RequestNext(s, c, PcOf(s, c), choice).value, c)
  {
    assert Cleared(s.log, PcOf(s, c));
    var t := RequestNext(s, c, PcOf(s, c), choice).value;
    ClearedPersists(s.log, t.log);
  }

  lemma SendLawful(s: State, c: nat, f: Frame, ok: Pc, failed: Pc)
    requires WireInv(s) && (Gated(f) ==> HandshakeDone(s.log))
    requires Cleared(s.log, failed) && Cleared(s.log + [Sent(f)], ok)
    ensures Lawful(s, SendThen(s, c, f, ok, failed), c)
  {
    if s.sh.outboundOpen {
      Appended(s.log, Sent(f));
      ClearedPersists(s.log, s.log + [Sent(f)]);
    }
  }

  lemma RequestSendLawful(s: State, c: nat, choice: Choice)
    requires WireInv(s) && PcOf(s, c).Send? && RequestNext(s, c, PcOf(s, c), choice).Some?
    ensures Lawful(s, RequestNext(s, c, PcOf(s, c), choice).value, c)
  {
    var Send(call, id, chan) := PcOf(s, c);
    assert Cleared(s.log, PcOf(s, c));
    var f := RequestFrame(call.name, id, call.params);
    ClearedPersists(s.log, s.log + [Sent(f)]);
    SendLawful(s, c, f, Await(call, id, chan), Unsend(call, id, chan));
  }

  lemma NoteSendLawful(s: State, c: nat)
    requires WireInv(s) && PcOf(s, c).NoteSend? && NoteNext(s, c, PcOf(s, c)).Some?
    ensures Lawful(s, NoteNext(s, c, PcOf(s, c)).value, c)
  {
    var pc := PcOf(s, c);
    assert Cleared(s.log, pc);
    var f := NotificationFrame(pc.name, pc.params);
    Appended(s.log, Sent(f));
    SendLawful(s, c, f, if pc.marksReady then InitializedMax else Idle, Idle);
  }

  lemma NoteLawful(s: State, c: nat)
    requires WireInv(s) && InNote(PcOf(s, c)) && NoteNext(s, c, PcOf(s, c)).Some?
    ensures Lawful(s, NoteNext(s, c, PcOf(s, c)).value, c)
  {
    var pc := PcOf(s, c);
    assert Cleared(s.log, pc);
    if pc.NoteSend? {
      NoteSendLawful(s, c);
    } else if pc.ReplySend? {
      SendLawful(s, c, pc.reply, Idle, Idle);
    } else if pc.InitializedMax? {
      DoneIsSeen(s.log);
    }
  }

  lemma EnsureNotifyLawful(s: State, c: nat)
    requires WireInv(s) && PcOf(s, c).EnsureNotify? && EnsureNext(s, c, PcOf(s, c)).Some?
    ensures Lawful(s, EnsureNext(s, c, PcOf(s, c)).value, c)
  {
    var f := NotificationFrame(METHOD_INITIALIZED, Obj(map[]));
    assert Cleared(s.log, PcOf(s, c));
    Appended(s.log, Sent(f));
    SendLawful(s, c, f, EnsureReady, Idle);
  }

  lemma NotedLawful(s: State, t: State, c: nat, e: Entry)
    requires WireInv(s) && (e.EnsureOk? || e.EnsureFailed?)
    requires t.log == s.log + [e] && t.loop == s.loop && t.callers == s.callers[c := Idle]
    requires StateCleared(s.log, t.sh.handshake)
    ensures Lawful(s, t, c)
  {
    Appended(s.log, e);
  }

  lemma EnsureEndLawful(s: State, c: nat)
    requires PcOf(s, c).EnsureFast? || PcOf(s, c).EnsureCheck? || PcOf(s, c).EnsureReset? || PcOf(s, c).EnsureReady?
    requires WireInv(s) && EnsureNext(s, c, PcOf(s, c)).Some?
    ensures Lawful(s, EnsureNext(s, c, PcOf(s, c)).value, c)
  {
    var t := EnsureNext(s, c, PcOf(s, c)).value;
    assert Cleared(s.log, PcOf(s, c));
    if PcOf(s, c).EnsureReset? {
      NotedLawful(s, t, c, EnsureFailed);
    } else if PcOf(s, c).EnsureReady? {
      DoneIsSeen(s.log);
      NotedLawful(s, t, c, EnsureOk(HANDSHAKE_READY));
    } else if s.sh.handshake == HANDSHAKE_READY {
      NotedLawful(s, t, c, EnsureOk(HANDSHAKE_READY));
    }
  }

  lemma EnsureLawful(s: State, c: nat)
    requires WireInv(s) && InEnsure(PcOf(s, c)) && EnsureNext(s, c, PcOf(s, c)).Some?
    ensures Lawful(s, EnsureNext(s, c, PcOf(s, c)).value, c)
  {
    var pc := PcOf(s, c);
    if pc.EnsureNotify? {
      EnsureNotifyLawful(s, c);
    } else if pc.EnsureFast? || pc.EnsureCheck? || pc.EnsureReset? || pc.EnsureReady? {
      EnsureEndLawful(s, c);
    } else {
      assert Cleared(s.log, pc);
    }
  }

  lemma AdvanceKeepsWire(s: State, c: nat, choice: Choice)
    requires Good(s) && WireInv(s) && AdvanceNext(s, c, choice).Some?
    ensures WireInv(AdvanceNext(s, c, choice).value)
  {
    var pc := PcOf(s, c);
    if pc.Await? {
      AwaitLawful(s, c, choice);
    } else if pc.Unsend? || pc.Expire? {
      LeaveLawful(s, c, choice);
    } else if pc.Send? {
      RequestSendLawful(s, c, choice);
    } else if InRequest(pc) {
      BeginLawful(s, c, choice);
    } else if InNote(pc) {
      NoteLawful(s, c);
    } else {
      EnsureLawful(s, c);
    }
    LawfulKeepsInv(s, AdvanceNext(s, c, choice).value, c);
  }

  /** A step of the loop moves no caller and sends nothing gated. */
  ghost predicate LoopLawful(s: State, t: State) {
    && t.callers == s.callers && t.sh.handshake == s.sh.handshake
    && (t.log == s.log || exists e :: t.log == s.log + [e] && MayAppend(s.log, e))
    && (t.loop.Replying? ==> !Gated(t.loop.reply))
  }

  lemma ReceiveLawful(s: State, item: Item)
    requires WireInv(s)
    ensures LoopLawful(s, ReceiveNext(s, item))
  {
    ReceiveLog(s, item);
    var t := ReceiveNext(s, item);
    assert MayAppend(s.log, t.log[|s.log|]);
  }

  lemma ReceiveLog(s: State, item: Item)
    ensures var t := ReceiveNext(s, item);
      && |t.log| == |s.log| + 1 && t.log == s.log + [t.log[|s.log|]]
      && (t.log[|s.log|].Handled? || t.log[|s.log|].LoopFailed?)
      && t.callers == s.callers && t.sh.handshake == s.sh.handshake && t.sh.sent == s.sh.sent && !t.loop.Replying?
  {
    if item.Payload? {
      match ClassifyIncoming(item.value)
      case Response(id, r) =>
      case Notification(name, params) =>
      case ServerRequest(id, name, params) =>
      case Invalid =>
    }
  }

  lemma LoopIsLawful(s: State, step: Step)
    requires WireInv(s) && OfLoop(step) && LoopNext(s, step).Some?
    ensures LoopLawful(s, LoopNext(s, step).value)
  {
    var t := LoopNext(s, step).value;
    if step.Receive? {
      ReceiveLawful(s, step.item);
    } else if step.SendReply? {
      assert t.log != s.log ==> t.log == s.log + [t.log[|s.log|]] && MayAppend(s.log, t.log[|s.log|]);
    }
  }

  lemma LoopKeepsWire(s: State, t: State)
    requires WireInv(s) && LoopLawful(s, t)
    ensures WireInv(t)
  {
    if t.log != s.log {
      var e :| t.log == s.log + [e] && MayAppend(s.log, e);
      Appended(s.log, e);
    }
    ClearedPersists(s.log, t.log);
    forall d ensures Cleared(t.log, PcOf(t, d)) {
      assert Cleared(s.log, PcOf(s, d));
    }
  }

  lemma StepKeepsWire(s: State, step: Step)
    requires Good(s) && WireInv(s) && Next(s, step).Some?
    ensures WireInv(Next(s, step).value)
  {
    if step.Advance? {
      AdvanceKeepsWire(s, step.c, step.choice);
    } else if OfLoop(step) {
      LoopIsLawful(s, step);
      LoopKeepsWire(s, LoopNext(s, step).value);
    } else {
      var t := Next(s, step).value;
      forall d ensures Cleared(t.log, PcOf(t, d)) {
        assert Cleared(s.log, PcOf(s, d));
      }
    }
  }

  lemma {:induction false} RunKeepsWire(steps: seq<Step>)
    requires Run(INIT, steps).Some?
    ensures WireInv(Run(INIT, steps).value)
  {
    if steps != [] {
      var front := steps[..|steps| - 1];
      RunKeepsWire(front);
      RunKeepsGood(INIT, front);
      StepKeepsWire(Run(INIT, front).value, steps[|steps| - 1]);
    }
  }

  // ----- the order, by positions

  lemma {:induction false} OrderedAt(log: seq<Entry>, p: nat)
    requires Ordered(log) && p < |log|
    ensures Ordered(log[..p + 1])
  {
    if p + 1 < |log| {
      OrderedAt(log[..|log| - 1], p);
      assert log[..|log| - 1][..p + 1] == log[..p + 1];
    } else {
      assert log[..p + 1] == log;
    }
  }

  lemma {:induction false} InitPosition(log: seq<Entry>) returns (i: nat)
    requires InitSeen(log)
    ensures i < |log| && log[i].InitOk?
  {
    if InitSeen(log[..|log| - 1]) {
      i := InitPosition(log[..|log| - 1]);
    } else {
      i := |log| - 1;
    }
  }

  lemma {:induction false} HandshakePositions(log: seq<Entry>) returns (i: nat, q: nat)
    requires HandshakeDone(log)
    ensures i < q < |log| && log[i].InitOk? && IsInitialized(log[q])
  {
    if HandshakeDone(log[..|log| - 1]) {
      i, q := HandshakePositions(log[..|log| - 1]);
    } else {
      i := InitPosition(log[..|log| - 1]);
      q := |log| - 1;
    }
  }

  /** Every request other than `initialize` and every notification other than
      `initialized` is preceded on the wire by an `initialized` notification,
      itself enqueued after an `initialize` request with id `id` had been
      sent and had its first response, a result, accepted. */
  lemma HandshakeComesFirst(s: State, p: nat) returns (i: nat, q: nat, id: int)
    requires Reachable(s) && p < |s.log| && s.log[p].Sent? && Gated(s.log[p].frame)
    ensures i < q < p && s.log[i] == InitOk(id) && IsInitialized(s.log[q])
    ensures InitializeSent(s.log[..i], id)
    ensures Mailbox(s.log[..i], id).First? && Mailbox(s.log[..i], id).result.Value?
  {
    var steps :| Run(INIT, steps) == Some(s);
    RunKeepsWire(steps);
    ClearedAt(s.log, p);
    i, q := HandshakePositions(s.log[..p]);
    id := s.log[i].id;
    ClearedAt(s.log, i);
  }

  lemma ClearedAt(log: seq<Entry>, p: nat)
    requires Ordered(log) && p < |log|
    ensures log[p].Sent? && Gated(log[p].frame) ==> HandshakeDone(log[..p])
    ensures
      log[p].InitOk? ==>
        var id := log[p].id;
        InitializeSent(log[..p], id) && Mailbox(log[..p], id).First? && Mailbox(log[..p], id).result.Value?
  {
    OrderedAt(log, p);
    assert log[..p + 1][..p] == log[..p];
  }

  // ----- the history against the queue itself

  function SentOf(log: seq<Entry>): seq<Frame> {
    if log == [] then []
    else
      var e := log[|log| - 1];
      if e.Sent? then SentOf(log[..|log| - 1]) + [e.frame] else SentOf(log[..|log| - 1])
  }

  lemma StepKeepsSent(s: State, step: Step)
    requires Next(s, step).Some? && s.sh.sent == SentOf(s.log)
    ensures var t := Next(s, step).value; t.sh.sent == SentOf(t.log)
  {
    if step.Advance? {
      AdvanceKeepsSent(s, step.c, step.choice);
    } else if OfLoop(step) {
      LoopKeepsSent(s, step);
    }
  }

  lemma LoopKeepsSent(s: State, step: Step)
    requires OfLoop(step) && LoopNext(s, step).Some? && s.sh.sent == SentOf(s.log)
    ensures var t := LoopNext(s, step).value; t.sh.sent == SentOf(t.log)
  {
    if step.Receive? {
      ReceiveLog(s, step.item);
    }
  }

  lemma AdvanceKeepsSent(s: State, c: nat, choice: Choice)
    requires AdvanceNext(s, c, choice).Some? && s.sh.sent == SentOf(s.log)
    ensures var t := AdvanceNext(s, c, choice).value; t.sh.sent == SentOf(t.log)
  {
    var pc := PcOf(s, c);
    if InRequest(pc) {
      RequestKeepsSent(s, c, choice);
    } else if InNote(pc) {
      NoteKeepsSent(s, c);
    } else {
      EnsureKeepsSent(s, c);
    }
  }

  lemma SentWhileRequestBegins(s: State, c: nat, choice: Choice)
    requires (PcOf(s, c).Gate? || PcOf(s, c).AllocId? || PcOf(s, c).Insert?)
        && RequestNext(s, c, PcOf(s, c), choice).Some? && s.sh.sent == SentOf(s.log)
    ensures var t := RequestNext(s, c, PcOf(s, c), choice).value; t.sh.sent == SentOf(t.log)
  {
  }

  lemma SentWhileRequestSends(s: State, c: nat, choice: Choice)
    requires PcOf(s, c).Send? && RequestNext(s, c, PcOf(s, c), choice).Some? && s.sh.sent == SentOf(s.log)
    ensures var t := RequestNext(s, c, PcOf(s, c), choice).value; t.sh.sent == SentOf(t.log)
  {
  }

  lemma EndKeepsSent(u: State, c: nat, call: Call, id: int, o: Outcome, decodes: bool)
    requires u.sh.sent == SentOf(u.log)
    ensures var t := EndRequest(u, c, call, id, o, decodes); t.sh.sent == SentOf(t.log)
  {
  }

  lemma SentWhileRequestEnds(s: State, c: nat, choice: Choice)
    requires (PcOf(s, c).Unsend? || PcOf(s, c).Await? || PcOf(s, c).Expire?)
        && RequestNext(s, c, PcOf(s, c), choice).Some? && s.sh.sent == SentOf(s.log)
    ensures var t := RequestNext(s, c, PcOf(s, c), choice).value; t.sh.sent == SentOf(t.log)
  {
    var pc := PcOf(s, c);
    var forgot := s.(sh := Forget(s.sh, Integer(pc.id)));
    if pc.Unsend? {
      EndKeepsSent(forgot, c, pc.call, pc.id, SendFailed, choice.decodes);
    } else if pc.Expire? {
      EndKeepsSent(forgot, c, pc.call, pc.id, TimedOut, choice.decodes);
    } else {
      match s.sh.channels[pc.chan]
      case Open =>
      case Filled(Value(v)) => EndKeepsSent(s, c, pc.call, pc.id, Got(v), choice.decodes);
      case Filled(Failed(e)) => EndKeepsSent(s, c, pc.call, pc.id, RpcFailure(e), choice.decodes);
      case Closed => EndKeepsSent(s, c, pc.call, pc.id, ChannelClosed, choice.decodes);
    }
  }

  lemma RequestKeepsSent(s: State, c: nat, choice: Choice)
    requires InRequest(PcOf(s, c)) && RequestNext(s, c, PcOf(s, c), choice).Some? && s.sh.sent == SentOf(s.log)
    ensures var t := RequestNext(s, c, PcOf(s, c), choice).value; t.sh.sent == SentOf(t.log)
  {
    var pc := PcOf(s, c);
    if pc.Gate? || pc.AllocId? || pc.Insert? {
      SentWhileRequestBegins(s, c, choice);
    } else if pc.Send? {
      SentWhileRequestSends(s, c, choice);
    } else {
      SentWhileRequestEnds(s, c, choice);
    }
  }

  lemma NoteKeepsSent(s: State, c: nat)
    requires InNote(PcOf(s, c)) && NoteNext(s, c, PcOf(s, c)).Some? && s.sh.sent == SentOf(s.log)
    ensures var t := NoteNext(s, c, PcOf(s, c)).value; t.sh.sent == SentOf(t.log)
  {
  }

  lemma EnsureKeepsSent(s: State, c: nat)
    requires InEnsure(PcOf(s, c)) && EnsureNext(s, c, PcOf(s, c)).Some? && s.sh.sent == SentOf(s.log)
    ensures var t := EnsureNext(s, c, PcOf(s, c)).value; t.sh.sent == SentOf(t.log)
  {
  }

  lemma {:induction false} RunKeepsSent(steps: seq<Step>)
    requires Run(INIT, steps).Some?
    ensures var t := Run(INIT, steps).value; t.sh.sent == SentOf(t.log)
  {
    if steps != [] {
      var front := steps[..|steps| - 1];
      RunKeepsSent(front);
      StepKeepsSent(Run(INIT, front).value, steps[|steps| - 1]);
    }
  }

  lemma {:induction false} DoneIsOnTheWire(log: seq<Entry>)
    requires HandshakeDone(log)
    ensures exists q :: 0 <= q < |SentOf(log)| && IsInitialized(Sent(SentOf(log)[q]))
  {
    var front := log[..|log| - 1];
    if HandshakeDone(front) {
      DoneIsOnTheWire(front);
      var q :| 0 <= q < |SentOf(front)| && IsInitialized(Sent(SentOf(front)[q]));
      assert SentOf(log)[q] == SentOf(front)[q];
    } else {
      assert IsInitialized(Sent(SentOf(log)[|SentOf(log)| - 1]));
    }
  }

  lemma {:induction false} OrderedOnTheWire(log: seq<Entry>, p: nat)
    requires Ordered(log) && p < |SentOf(log)| && Gated(SentOf(log)[p])
    ensures exists q :: 0 <= q < p && IsInitialized(Sent(SentOf(log)[q]))
  {
    var front := log[..|log| - 1];
    if p < |SentOf(front)| {
      OrderedOnTheWire(front, p);
      var q :| 0 <= q < p && IsInitialized(Sent(SentOf(front)[q]));
      assert SentOf(log)[q] == SentOf(front)[q];
    } else {
      DoneIsOnTheWire(front);
      var q :| 0 <= q < |SentOf(front)| && IsInitialized(Sent(SentOf(front)[q]));
      assert SentOf(log)[q] == SentOf(front)[q];
    }
  }

  /** The same on the outbound queue, which the writer empties in order. */
  lemma QueueStartsWithHandshake(s: State, p: nat)
    requires Reachable(s) && p < |s.sh.sent| && Gated(s.sh.sent[p])
    ensures exists q :: 0 <= q < p && IsInitialized(Sent(s.sh.sent[q]))
  {
    var steps :| Run(INIT, steps) == Some(s);
    RunKeepsWire(steps);
    RunKeepsSent(steps);
    OrderedOnTheWire(s.log, p);
  }
}
