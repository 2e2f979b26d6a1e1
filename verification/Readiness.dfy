/** The handshake performed by `ensure_ready` alone happens once, and exactly
    when a ready connection can stop being ready. */
module Readiness {
  import opened Options
  import opened Json
  import opened Rpc
  import opened Inner
  import opened Engine
  import opened Correlation
  import opened WireOrder

  // ----- runs in which only ensure_ready performs the handshake

  predicate EnsureOnly(step: Step) {
    && !step.StartInitialize? && !step.StartInitialized?
    && (step.StartRequest? ==> step.name != METHOD_INITIALIZE)
    && (step.StartNotification? ==> step.name != METHOD_INITIALIZED)
  }

  /** Successful `initialize` calls, `initialize` and `initialized` frames
      sent, failed attempts of `ensure_ready`, and its `Ok` returns. */
  datatype Tally = Tally(succeeded: nat, initialize: nat, initialized: nat, failed: nat, returned: nat)

  predicate IsInitializeFrame(f: Frame) {
    f.RequestFrame? && f.name == METHOD_INITIALIZE
  }

  predicate IsInitializedFrame(f: Frame) {
    f.NotificationFrame? && f.name == METHOD_INITIALIZED
  }

  function Add(n: Tally, e: Entry): Tally {
    match e
    case InitOk(_) => n.(succeeded := n.succeeded + 1)
    case EnsureFailed => n.(failed := n.failed + 1)
    case EnsureOk(_) => n.(returned := n.returned + 1)
    case Sent(f) =>
      if IsInitializeFrame(f) then n.(initialize := n.initialize + 1)
      else if IsInitializedFrame(f) then n.(initialized := n.initialized + 1)
      else n
    case _ => n
  }

  function Count(log: seq<Entry>): Tally {
    if log == [] then Tally(0, 0, 0, 0, 0) else Add(Count(log[..|log| - 1]), log[|log| - 1])
  }

  predicate OfEnsure(pc: Pc) {
    InRequest(pc) && pc.call.purpose.Ensure?
  }

  /** Inside the section guarded by the handshake lock. */
  predicate Critical(pc: Pc) {
    OfEnsure(pc) || (InEnsure(pc) && !pc.EnsureFast? && !pc.EnsureLock?)
  }

  predicate Plain(pc: Pc) {
    && (InRequest(pc) ==>
          if pc.call.purpose.Ensure? then pc.call.name == METHOD_INITIALIZE
          else pc.call.purpose.Raw? && pc.call.name != METHOD_INITIALIZE)
    && !pc.InitializeMax? && !pc.InitializedGate? && !pc.InitializedMax?
    && (pc.NoteGate? ==> pc.name != METHOD_INITIALIZED)
    && (pc.NoteSend? ==> pc.name != METHOD_INITIALIZED && !pc.marksReady)
    && (pc.ReplySend? ==> pc.reply.ResultFrame? || pc.reply.ErrorFrame?)
  }

  /** The holder's `initialize` frame is out and its attempt not yet over. */
  predicate InFlight(pc: Pc) {
    pc.EnsureReset? || (OfEnsure(pc) && (pc.Await? || pc.Expire?))
  }

  /** Where the handshake stands while the lock holder is at `pc`. */
  predicate Phase(pc: Pc, h: nat, n: Tally) {
    && (n.returned > 0 ==> h == HANDSHAKE_READY)
    && n.initialize <= n.succeeded + n.failed + (if InFlight(pc) then 1 else 0)
    && if OfEnsure(pc) || pc.EnsureReset? then h == HANDSHAKE_INITIALIZING && n.succeeded == 0 && n.initialized == 0
       else if pc.EnsureSet? then h == HANDSHAKE_INITIALIZING && n.succeeded == 1 && n.initialized == 0
       else if pc.EnsureMark? then h == HANDSHAKE_NEW && n.succeeded == 0 && n.initialized == 0
       else if pc.EnsureNotify? then h == HANDSHAKE_INITIALIZED && n.succeeded == 1 && n.initialized == 0
       else if pc.EnsureReady? then h == HANDSHAKE_INITIALIZED && n.succeeded == 1 && n.initialized == 1
       else
         || (h == HANDSHAKE_NEW && n.succeeded == 0 && n.initialized == 0)
         || (h == HANDSHAKE_INITIALIZED && n.succeeded == 1 && n.initialized == 0)
         || (!pc.EnsureNeed? && h == HANDSHAKE_READY && n.succeeded == 1 && n.initialized == 1)
  }

  function Holder(s: State): Pc {
    if s.lock.Some? then PcOf(s, s.lock.value) else Idle
  }

  ghost predicate OnceInv(s: State) {
    && (forall c: nat :: Plain(PcOf(s, c)))
    && (forall c: nat :: Critical(PcOf(s, c)) <==> s.lock == Some(c))
    && (s.loop.Replying? ==> s.loop.reply.ResultFrame? || s.loop.reply.ErrorFrame?)
    && Phase(Holder(s), s.sh.handshake, Count(s.log))
  }

  /** A step by a caller outside the critical section that stays outside. */
  ghost predicate Bystander(s: State, t: State, c: nat) {
    && t.lock == s.lock && t.loop == s.loop && t.sh.handshake == s.sh.handshake
    && (Count(t.log) == Count(s.log)
        || (s.sh.handshake == HANDSHAKE_READY && Count(t.log) == Add(Count(s.log), EnsureOk(HANDSHAKE_READY))))
    && c in t.callers && t.callers == s.callers[c := t.callers[c]] && Plain(t.callers[c]) && !Critical(t.callers[c])
  }

  lemma BystanderKeepsOnce(s: State, t: State, c: nat)
    requires OnceInv(s) && !Critical(PcOf(s, c)) && Bystander(s, t, c)
    ensures OnceInv(t)
  {
    forall d: nat ensures Plain(PcOf(t, d)) && (Critical(PcOf(t, d)) <==> t.lock == Some(d)) {
      assert Plain(PcOf(s, d)) && (Critical(PcOf(s, d)) <==> s.lock == Some(d));
    }
  }

  /** A step by the holder of the lock. */
  ghost predicate HolderMoves(s: State, t: State, c: nat) {
    && t.loop == s.loop && c in t.callers && t.callers == s.callers[c := t.callers[c]] && Plain(t.callers[c])
    && (if Critical(t.callers[c]) then t.lock == Some(c) else t.lock == None)
    && Phase(if Critical(t.callers[c]) then t.callers[c] else Idle, t.sh.handshake, Count(t.log))
  }

  lemma HolderKeepsOnce(s: State, t: State, c: nat)
    requires OnceInv(s) && (s.lock == Some(c) || s.lock == None) && HolderMoves(s, t, c)
    ensures OnceInv(t)
  {
    forall d: nat ensures Plain(PcOf(t, d)) && (Critical(PcOf(t, d)) <==> t.lock == Some(d)) {
      assert Plain(PcOf(s, d)) && (Critical(PcOf(s, d)) <==> s.lock == Some(d));
    }
  }

  lemma Counted(log: seq<Entry>, e: Entry)
    ensures Count(log + [e]) == Add(Count(log), e)
  {
    assert (log + [e])[..|log|] == log;
  }

  lemma RawEnd(s: State, u: State, c: nat, call: Call, id: int, o: Outcome, decodes: bool)
    requires call.purpose.Raw? && u.callers == s.callers && u.loop == s.loop && u.lock == s.lock && u.log == s.log
        && u.sh.handshake == s.sh.handshake
    ensures Bystander(s, EndRequest(u, c, call, id, o, decodes), c)
  {
  }

  lemma PlainSend(s: State, c: nat, f: Frame, ok: Pc, failed: Pc)
    requires Plain(ok) && Plain(failed) && !Critical(ok) && !Critical(failed)
    requires !IsInitializeFrame(f) && !IsInitializedFrame(f)
    ensures Bystander(s, SendThen(s, c, f, ok, failed), c)
  {
    var t := SendThen(s, c, f, ok, failed);
    if s.sh.outboundOpen {
      Counted(s.log, Sent(f));
      assert t.log == s.log + [Sent(f)];
      assert Count(t.log) == Count(s.log);
      assert t.callers[c] == ok;
      assert t.callers == s.callers[c := ok];
      assert t.lock == s.lock && t.loop == s.loop && t.sh.handshake == s.sh.handshake;
    } else {
      assert t.callers[c] == failed;
    }
  }

  lemma RawBegins(s: State, c: nat, choice: Choice)
    requires PcOf(s, c).Gate? || PcOf(s, c).AllocId? || PcOf(s, c).Insert?
    requires Plain(PcOf(s, c)) && !Critical(PcOf(s, c)) && RequestNext(s, c, PcOf(s, c), choice).Some?
    ensures Bystander(s, RequestNext(s, c, PcOf(s, c), choice).value, c)
  {
    if PcOf(s, c).Insert? {
      Counted(s.log, Registered(PcOf(s, c).id));
    }
  }

  lemma RawAwaits(s: State, c: nat, choice: Choice)
    requires PcOf(s, c).Await?
    requires Plain(PcOf(s, c)) && !Critical(PcOf(s, c)) && RequestNext(s, c, PcOf(s, c), choice).Some?
    ensures Bystander(s, RequestNext(s, c, PcOf(s, c), choice).value, c)
  {
    var Await(call, id, chan) := PcOf(s, c);
    match s.sh.channels[chan]
    case Open =>
    case Filled(Value(v)) => RawEnd(s, s, c, call, id, Got(v), choice.decodes);
    case Filled(Failed(e)) => RawEnd(s, s, c, call, id, RpcFailure(e), choice.decodes);
    case Closed => RawEnd(s, s, c, call, id, ChannelClosed, choice.decodes);
  }

  lemma RawLeaves(s: State, c: nat, choice: Choice)
    requires PcOf(s, c).Unsend? || PcOf(s, c).Expire?
    requires Plain(PcOf(s, c)) && !Critical(PcOf(s, c))
    ensures Bystander(s, RequestNext(s, c, PcOf(s, c), choice).value, c)
  {
    var pc := PcOf(s, c);
    var o := if pc.Unsend? then SendFailed else TimedOut;
    RawEnd(s, s.(sh := Forget(s.sh, Integer(pc.id))), c, pc.call, pc.id, o, choice.decodes);
  }

  lemma RawSends(s: State, c: nat, choice: Choice)
    requires PcOf(s, c).Send?
    requires Plain(PcOf(s, c)) && !Critical(PcOf(s, c)) && RequestNext(s, c, PcOf(s, c), choice).Some?
    ensures Bystander(s, RequestNext(s, c, PcOf(s, c), choice).value, c)
  {
    var Send(call, id, chan) := PcOf(s, c);
    PlainSend(s, c, RequestFrame(call.name, id, call.params), Await(call, id, chan), Unsend(call, id, chan));
  }

  lemma RawStep(s: State, c: nat, choice: Choice)
    requires Plain(PcOf(s, c)) && InRequest(PcOf(s, c)) && !Critical(PcOf(s, c))
        && RequestNext(s, c, PcOf(s, c), choice).Some?
    ensures Bystander(s, RequestNext(s, c, PcOf(s, c), choice).value, c)
  {
    var pc := PcOf(s, c);
    if pc.Send? {
      RawSends(s, c, choice);
    } else if pc.Unsend? || pc.Expire? {
      RawLeaves(s, c, choice);
    } else if pc.Await? {
      RawAwaits(s, c, choice);
    } else {
      RawBegins(s, c, choice);
    }
  }

  lemma NoteStep(s: State, c: nat)
    requires Plain(PcOf(s, c)) && InNote(PcOf(s, c)) && NoteNext(s, c, PcOf(s, c)).Some?
    ensures Bystander(s, NoteNext(s, c, PcOf(s, c)).value, c)
  {
    match PcOf(s, c)
    case NoteGate(name, params) =>
    case NoteSend(name, params, _) => PlainSend(s, c, NotificationFrame(name, params), Idle, Idle);
    case ReplySend(reply) => PlainSend(s, c, reply, Idle, Idle);
  }

  lemma HolderEnd(s: State, u: State, c: nat, call: Call, id: int, o: Outcome, decodes: bool)
    requires call.purpose.Ensure? && s.lock == Some(c) && InFlight(Await(call, id, 0))
    requires u.callers == s.callers && u.loop == s.loop && u.lock == s.lock && u.log == s.log
        && u.sh.handshake == s.sh.handshake
    requires Phase(Await(call, id, 0), s.sh.handshake, Count(s.log))
    ensures HolderMoves(s, EndRequest(u, c, call, id, o, decodes), c)
  {
    var t := EndRequest(u, c, call, id, o, decodes);
    if o.Got? && decodes {
      HolderSucceeds(s, t, c, Await(call, id, 0), id);
    } else {
      HolderArrives(s, t, c, EnsureReset);
    }
  }

  lemma HolderSucceeds(s: State, t: State, c: nat, pc: Pc, id: int)
    requires s.lock == Some(c) && OfEnsure(pc) && InFlight(pc)
    requires t.loop == s.loop && t.lock == s.lock && t.sh.handshake == s.sh.handshake
    requires t.log == s.log + [InitOk(id)] && t.callers == s.callers[c := EnsureSet]
    requires Phase(pc, s.sh.handshake, Count(s.log))
    ensures HolderMoves(s, t, c)
  {
    Counted(s.log, InitOk(id));
  }

  lemma HolderSend(s: State, c: nat, f: Frame, ok: Pc, failed: Pc)
    requires s.lock == Some(c) && Plain(ok) && Plain(failed) && Critical(ok) && Critical(failed)
    requires Phase(ok, s.sh.handshake, Add(Count(s.log), Sent(f))) && Phase(failed, s.sh.handshake, Count(s.log))
    ensures HolderMoves(s, SendThen(s, c, f, ok, failed), c)
  {
    var t := SendThen(s, c, f, ok, failed);
    if s.sh.outboundOpen {
      Counted(s.log, Sent(f));
      assert t.log == s.log + [Sent(f)] && t.callers[c] == ok && t.callers == s.callers[c := ok];
    } else {
      assert t.callers[c] == failed;
    }
  }

  /** The holder arrives at `pc`, having written nothing that counts. */
  lemma HolderArrives(s: State, t: State, c: nat, pc: Pc)
    requires s.lock == Some(c) && t.lock == s.lock && t.loop == s.loop && t.callers == s.callers[c := pc]
    requires t.sh.handshake == s.sh.handshake && Count(t.log) == Count(s.log)
    requires Plain(pc) && Critical(pc) && Phase(pc, s.sh.handshake, Count(s.log))
    ensures HolderMoves(s, t, c)
  {
  }

  lemma HolderBegins(s: State, c: nat, choice: Choice)
    requires PcOf(s, c).Gate? || PcOf(s, c).AllocId? || PcOf(s, c).Insert?
    requires Plain(PcOf(s, c)) && s.lock == Some(c) && OfEnsure(PcOf(s, c))
        && RequestNext(s, c, PcOf(s, c), choice).Some?
    requires Phase(PcOf(s, c), s.sh.handshake, Count(s.log))
    ensures HolderMoves(s, RequestNext(s, c, PcOf(s, c), choice).value, c)
  {
    var pc, t := PcOf(s, c), RequestNext(s, c, PcOf(s, c), choice).value;
    if pc.Gate? {
      HolderArrives(s, t, c, AllocId(pc.call));
    } else if pc.AllocId? {
      HolderArrives(s, t, c, Insert(pc.call, s.sh.nextId));
    } else {
      Counted(s.log, Registered(pc.id));
      RegisterKeepsHandshake(s, pc.id);
      HolderArrives(s, t, c, Send(pc.call, pc.id, |s.sh.channels|));
    }
  }

  lemma RegisterKeepsHandshake(s: State, id: int)
    ensures Register(s.sh, Integer(id)).handshake == s.sh.handshake
    ensures |Register(s.sh, Integer(id)).channels| == |s.sh.channels| + 1
  {
  }

  lemma HolderAwaits(s: State, c: nat, choice: Choice)
    requires PcOf(s, c).Await?
    requires Plain(PcOf(s, c)) && s.lock == Some(c) && OfEnsure(PcOf(s, c))
        && RequestNext(s, c, PcOf(s, c), choice).Some?
    requires Phase(PcOf(s, c), s.sh.handshake, Count(s.log))
    ensures HolderMoves(s, RequestNext(s, c, PcOf(s, c), choice).value, c)
  {
    var Await(call, id, chan) := PcOf(s, c);
    match s.sh.channels[chan]
    case Open =>
    case Filled(Value(v)) => HolderEnd(s, s, c, call, id, Got(v), choice.decodes);
    case Filled(Failed(e)) => HolderEnd(s, s, c, call, id, RpcFailure(e), choice.decodes);
    case Closed => HolderEnd(s, s, c, call, id, ChannelClosed, choice.decodes);
  }

  lemma HolderRequestStep(s: State, c: nat, choice: Choice)
    requires Plain(PcOf(s, c)) && s.lock == Some(c) && OfEnsure(PcOf(s, c))
        && RequestNext(s, c, PcOf(s, c), choice).Some?
    requires Phase(PcOf(s, c), s.sh.handshake, Count(s.log))
    ensures HolderMoves(s, RequestNext(s, c, PcOf(s, c), choice).value, c)
  {
    var pc := PcOf(s, c);
    if pc.Send? {
      HolderSend(s, c, RequestFrame(pc.call.name, pc.id, pc.call.params), Await(pc.call, pc.id, pc.chan),
          Unsend(pc.call, pc.id, pc.chan));
    } else if pc.Unsend? {
      HolderEnd(s, s.(sh := Forget(s.sh, Integer(pc.id))), c, pc.call, pc.id, SendFailed, choice.decodes);
    } else if pc.Expire? {
      HolderEnd(s, s.(sh := Forget(s.sh, Integer(pc.id))), c, pc.call, pc.id, TimedOut, choice.decodes);
    } else if pc.Await? {
      HolderAwaits(s, c, choice);
    } else {
      HolderBegins(s, c, choice);
    }
  }

  lemma HolderEnds(s: State, t: State, c: nat, e: Entry)
    requires s.lock == Some(c) && (e.EnsureOk? || e.EnsureFailed?)
    requires t.log == s.log + [e] && t.loop == s.loop && t.callers == s.callers[c := Idle] && t.lock == None
    requires Phase(Idle, t.sh.handshake, Add(Count(s.log), e))
    ensures HolderMoves(s, t, c)
  {
    Counted(s.log, e);
  }

  lemma HolderNotifies(s: State, c: nat)
    requires PcOf(s, c).EnsureNotify? && EnsureNext(s, c, PcOf(s, c)).Some?
    requires s.lock == Some(c) && Phase(PcOf(s, c), s.sh.handshake, Count(s.log))
    ensures HolderMoves(s, EnsureNext(s, c, PcOf(s, c)).value, c)
  {
    var f := NotificationFrame(METHOD_INITIALIZED, Obj(map[]));
    var t := EnsureNext(s, c, PcOf(s, c)).value;
    if s.sh.outboundOpen {
      Counted(s.log, Sent(f));
      assert t.log == s.log + [Sent(f)] && t.callers[c] == EnsureReady && t.callers == s.callers[c := EnsureReady];
    } else {
      assert t.callers[c] == Idle && t.callers == s.callers[c := Idle] && t.lock == None;
    }
  }

  lemma HolderStores(s: State, c: nat)
    requires PcOf(s, c).EnsureMark? || PcOf(s, c).EnsureSet?
    requires s.lock == Some(c) && Phase(PcOf(s, c), s.sh.handshake, Count(s.log))
    ensures HolderMoves(s, EnsureNext(s, c, PcOf(s, c)).value, c)
  {
    var t := EnsureNext(s, c, PcOf(s, c)).value;
    assert t.log == s.log && t.callers == s.callers[c := t.callers[c]];
  }

  lemma HolderLocks(s: State, c: nat)
    requires PcOf(s, c).EnsureLock? && s.lock == None && Phase(Idle, s.sh.handshake, Count(s.log))
    ensures HolderMoves(s, EnsureNext(s, c, PcOf(s, c)).value, c)
  {
    var t := EnsureNext(s, c, PcOf(s, c)).value;
    assert t.log == s.log && t.callers[c] == EnsureCheck && t.callers == s.callers[c := EnsureCheck];
  }

  lemma HolderLooks(s: State, c: nat)
    requires (PcOf(s, c).EnsureCheck? && s.sh.handshake != HANDSHAKE_READY) || PcOf(s, c).EnsureNeed?
    requires s.lock == Some(c) && Phase(PcOf(s, c), s.sh.handshake, Count(s.log))
    ensures HolderMoves(s, EnsureNext(s, c, PcOf(s, c)).value, c)
  {
    var t := EnsureNext(s, c, PcOf(s, c)).value;
    assert t.log == s.log && t.callers == s.callers[c := t.callers[c]];
  }

  lemma HolderEnsureStep(s: State, c: nat)
    requires InEnsure(PcOf(s, c)) && !PcOf(s, c).EnsureFast? && EnsureNext(s, c, PcOf(s, c)).Some?
    requires if PcOf(s, c).EnsureLock? then Phase(Holder(s), s.sh.handshake, Count(s.log))
             else s.lock == Some(c) && Phase(PcOf(s, c), s.sh.handshake, Count(s.log))
    ensures HolderMoves(s, EnsureNext(s, c, PcOf(s, c)).value, c)
    ensures s.lock == Some(c) || s.lock == None
  {
    var t := EnsureNext(s, c, PcOf(s, c)).value;
    if PcOf(s, c).EnsureReset? {
      HolderEnds(s, t, c, EnsureFailed);
    } else if PcOf(s, c).EnsureReady? || (PcOf(s, c).EnsureCheck? && s.sh.handshake == HANDSHAKE_READY) {
      HolderEnds(s, t, c, EnsureOk(HANDSHAKE_READY));
    } else if PcOf(s, c).EnsureNotify? {
      HolderNotifies(s, c);
    } else if PcOf(s, c).EnsureMark? || PcOf(s, c).EnsureSet? {
      HolderStores(s, c);
    } else if PcOf(s, c).EnsureLock? {
      HolderLocks(s, c);
    } else {
      HolderLooks(s, c);
    }
  }

  lemma FastStep(s: State, c: nat)
    requires PcOf(s, c).EnsureFast?
    ensures Bystander(s, EnsureNext(s, c, PcOf(s, c)).value, c)
  {
    Counted(s.log, EnsureOk(s.sh.handshake));
  }

  lemma AdvanceKeepsOnce(s: State, c: nat, choice: Choice)
    requires OnceInv(s) && AdvanceNext(s, c, choice).Some?
    ensures OnceInv(AdvanceNext(s, c, choice).value)
  {
    var pc, t := PcOf(s, c), AdvanceNext(s, c, choice).value;
    assert Plain(pc) && (Critical(pc) <==> s.lock == Some(c));
    if OfEnsure(pc) {
      HolderRequestStep(s, c, choice);
      HolderKeepsOnce(s, t, c);
    } else if InRequest(pc) {
      RawStep(s, c, choice);
      BystanderKeepsOnce(s, t, c);
    } else if InNote(pc) {
      NoteStep(s, c);
      BystanderKeepsOnce(s, t, c);
    } else if pc.EnsureFast? {
      FastStep(s, c);
      BystanderKeepsOnce(s, t, c);
    } else {
      HolderEnsureStep(s, c);
      HolderKeepsOnce(s, t, c);
    }
  }

  lemma UntouchedKeepsOnce(s: State, t: State)
    requires OnceInv(s) && t.callers == s.callers && t.lock == s.lock
    requires t.sh.handshake == s.sh.handshake && Count(t.log) == Count(s.log)
    requires t.loop.Replying? ==> t.loop.reply.ResultFrame? || t.loop.reply.ErrorFrame?
    ensures OnceInv(t)
  {
    forall d: nat ensures Plain(PcOf(t, d)) && (Critical(PcOf(t, d)) <==> t.lock == Some(d)) {
      assert Plain(PcOf(s, d)) && (Critical(PcOf(s, d)) <==> s.lock == Some(d));
    }
  }

  lemma ReceiveMovesNobody(s: State, item: Item)
    ensures ReceiveNext(s, item).lock == s.lock
  {
  }

  lemma ReplyStep(s: State)
    requires OnceInv(s) && LoopNext(s, SendReply).Some?
    ensures var t := LoopNext(s, SendReply).value; t.lock == s.lock && t.callers == s.callers && t.loop.Receiving?
    ensures var t := LoopNext(s, SendReply).value; t.sh.handshake == s.sh.handshake && Count(t.log) == Count(s.log)
  {
    Counted(s.log, Sent(s.loop.reply));
  }

  lemma LoopKeepsOnce(s: State, step: Step)
    requires OnceInv(s) && OfLoop(step) && LoopNext(s, step).Some?
    ensures OnceInv(LoopNext(s, step).value)
  {
    var t := LoopNext(s, step).value;
    if step.Receive? {
      ReceiveLog(s, step.item);
      Counted(s.log, t.log[|s.log|]);
      ReceiveMovesNobody(s, step.item);
    } else if step.SendReply? {
      ReplyStep(s);
    } else {
      assert t.lock == s.lock && t.log == s.log && t.callers == s.callers;
    }
    UntouchedKeepsOnce(s, t);
  }

  lemma EnterKeepsOnce(s: State, c: nat, pc: Pc)
    requires OnceInv(s) && Enter(s, c, pc).Some? && Plain(pc) && !Critical(pc)
    ensures OnceInv(Enter(s, c, pc).value)
  {
    assert Bystander(s, At(s, c, pc), c);
    BystanderKeepsOnce(s, At(s, c, pc), c);
  }

  lemma StepKeepsOnce(s: State, step: Step)
    requires OnceInv(s) && EnsureOnly(step) && Next(s, step).Some?
    ensures OnceInv(Next(s, step).value)
  {
    if step.Advance? {
      AdvanceKeepsOnce(s, step.c, step.choice);
    } else if step.StartRequest? {
      EnterKeepsOnce(s, step.c, Gate(Call(step.name, step.params, Raw)));
    } else if step.StartNotification? {
      EnterKeepsOnce(s, step.c, NoteGate(step.name, step.params));
    } else if step.StartEnsure? {
      EnterKeepsOnce(s, step.c, EnsureFast);
    } else if step.StartReply? {
      EnterKeepsOnce(s, step.c, ReplySend(step.reply));
    } else if OfLoop(step) {
      LoopKeepsOnce(s, step);
    } else {
      UntouchedKeepsOnce(s, Next(s, step).value);
    }
  }

  ghost predicate EnsureOnlyRun(steps: seq<Step>) {
    forall i :: 0 <= i < |steps| ==> EnsureOnly(steps[i])
  }

  lemma {:induction false} RunKeepsOnce(steps: seq<Step>)
    requires EnsureOnlyRun(steps) && Run(INIT, steps).Some?
    ensures OnceInv(Run(INIT, steps).value)
  {
    if steps != [] {
      var front := steps[..|steps| - 1];
      RunKeepsOnce(front);
      StepKeepsOnce(Run(INIT, front).value, steps[|steps| - 1]);
    }
  }

  /** However many callers run `ensure_ready` at once, at most one
      `initialize` succeeds, at most one plus the failed attempts are sent,
      `initialized` is sent at most once and only after the success, and once
      any call has returned `Ok` the connection is ready. */
  lemma HandshakeHappensOnce(steps: seq<Step>)
    requires EnsureOnlyRun(steps) && Run(INIT, steps).Some?
    ensures var n := Count(Run(INIT, steps).value.log);
      && n.succeeded <= 1 && n.initialize <= 1 + n.failed && n.initialized <= n.succeeded
      && (Run(INIT, steps).value.sh.handshake == HANDSHAKE_READY ==> n.initialized == 1)
      && (n.returned > 0 ==> Run(INIT, steps).value.sh.handshake == HANDSHAKE_READY)
  {
    RunKeepsOnce(steps);
  }

  // ----- exactly when a ready connection stays ready

  /** Inside `ensure_ready`, past its last look at the state and before its
      unconditional stores: the points from which READY can be overwritten. */
  predicate Danger(pc: Pc) {
    OfEnsure(pc) || pc.EnsureMark? || pc.EnsureReset? || pc.EnsureSet?
  }

  ghost predicate Calm(s: State) {
    s.sh.handshake == HANDSHAKE_READY && forall c: nat :: !Danger(PcOf(s, c))
  }

  lemma CalmAdvance(s: State, c: nat, choice: Choice)
    requires !Danger(PcOf(s, c)) && s.sh.handshake == HANDSHAKE_READY && AdvanceNext(s, c, choice).Some?
    ensures var t := AdvanceNext(s, c, choice).value;
      t.sh.handshake == HANDSHAKE_READY && c in t.callers && t.callers == s.callers[c := t.callers[c]]
          && !Danger(t.callers[c])
  {
    var pc := PcOf(s, c);
    if InRequest(pc) {
      CalmRequest(s, c, choice);
    } else if InNote(pc) {
      CalmNote(s, c);
    } else {
      CalmEnsure(s, c);
    }
  }

  /** A caller moves to a point out of danger and leaves the state alone. */
  ghost predicate StaysCalm(s: State, t: State, c: nat) {
    t.sh.handshake == s.sh.handshake && c in t.callers && t.callers == s.callers[c := t.callers[c]]
        && !Danger(t.callers[c])
  }

  lemma CalmEnd(s: State, u: State, c: nat, call: Call, id: int, o: Outcome, decodes: bool)
    requires u.callers == s.callers && u.sh.handshake == s.sh.handshake && !call.purpose.Ensure?
    ensures StaysCalm(s, EndRequest(u, c, call, id, o, decodes), c)
  {
  }

  lemma CalmSend(s: State, c: nat, f: Frame, ok: Pc, failed: Pc)
    requires !Danger(ok) && !Danger(failed)
    ensures StaysCalm(s, SendThen(s, c, f, ok, failed), c)
  {
    assert SendThen(s, c, f, ok, failed).callers[c] == if s.sh.outboundOpen then ok else failed;
  }

  lemma CalmRequest(s: State, c: nat, choice: Choice)
    requires InRequest(PcOf(s, c)) && !Danger(PcOf(s, c)) && RequestNext(s, c, PcOf(s, c), choice).Some?
    ensures StaysCalm(s, RequestNext(s, c, PcOf(s, c), choice).value, c)
  {
    var pc := PcOf(s, c);
    if pc.Send? {
      CalmSend(s, c, RequestFrame(pc.call.name, pc.id, pc.call.params), Await(pc.call, pc.id, pc.chan),
          Unsend(pc.call, pc.id, pc.chan));
    } else if pc.Unsend? {
      CalmEnd(s, s.(sh := Forget(s.sh, Integer(pc.id))), c, pc.call, pc.id, SendFailed, choice.decodes);
    } else if pc.Expire? {
      CalmEnd(s, s.(sh := Forget(s.sh, Integer(pc.id))), c, pc.call, pc.id, TimedOut, choice.decodes);
    } else {
      CalmQuietRequest(s, c, choice);
    }
  }

  lemma CalmQuietRequest(s: State, c: nat, choice: Choice)
    requires PcOf(s, c).Gate? || PcOf(s, c).AllocId? || PcOf(s, c).Insert? || PcOf(s, c).Await?
    requires !Danger(PcOf(s, c)) && RequestNext(s, c, PcOf(s, c), choice).Some?
    ensures StaysCalm(s, RequestNext(s, c, PcOf(s, c), choice).value, c)
  {
  }

  lemma CalmNote(s: State, c: nat)
    requires InNote(PcOf(s, c)) && s.sh.handshake == HANDSHAKE_READY && NoteNext(s, c, PcOf(s, c)).Some?
    ensures var t := NoteNext(s, c, PcOf(s, c)).value;
      t.sh.handshake == HANDSHAKE_READY && c in t.callers && t.callers == s.callers[c := t.callers[c]]
          && !Danger(t.callers[c])
  {
  }

  lemma CalmEnsure(s: State, c: nat)
    requires InEnsure(PcOf(s, c)) && !Danger(PcOf(s, c)) && s.sh.handshake == HANDSHAKE_READY
        && EnsureNext(s, c, PcOf(s, c)).Some?
    ensures var t := EnsureNext(s, c, PcOf(s, c)).value;
      t.sh.handshake == HANDSHAKE_READY && c in t.callers && t.callers == s.callers[c := t.callers[c]]
          && !Danger(t.callers[c])
  {
  }

  lemma StepKeepsCalm(s: State, step: Step)
    requires Calm(s) && Next(s, step).Some?
    ensures Calm(Next(s, step).value)
  {
    if step.Advance? {
      CalmAdvance(s, step.c, step.choice);
    } else if step.Receive? {
      ReceiveLog(s, step.item);
    }
    forall d: nat ensures !Danger(PcOf(Next(s, step).value, d)) {
      assert !Danger(PcOf(s, d));
    }
  }

  lemma {:induction false} RunKeepsCalm(s: State, steps: seq<Step>)
    requires Calm(s) && Run(s, steps).Some?
    ensures Calm(Run(s, steps).value)
  {
    if steps != [] {
      var front := steps[..|steps| - 1];
      RunKeepsCalm(s, front);
      StepKeepsCalm(Run(s, front).value, steps[|steps| - 1]);
    }
  }

  function Rank(pc: Pc): nat {
    match pc
    case AllocId(_) => 5
    case Insert(_, _) => 4
    case Send(_, _, _) => 3
    case Await(_, _, _) => 2
    case Gate(_) => 1
    case Unsend(_, _, _) => 1
    case Expire(_, _, _) => 1
    case _ => 0
  }

  /** With the outbound queue closed, a caller in danger moves one point
      closer to the store that takes READY away, or performs it. */
  lemma DangerAdvances(s: State, c: nat) returns (choice: Choice)
    requires Danger(PcOf(s, c)) && s.sh.handshake == HANDSHAKE_READY && !s.sh.outboundOpen
    requires PcOf(s, c).Await? ==> PcOf(s, c).chan < |s.sh.channels|
    ensures AdvanceNext(s, c, choice).Some?
    ensures var t := AdvanceNext(s, c, choice).value;
      || t.sh.handshake != HANDSHAKE_READY
      || (t.sh.handshake == HANDSHAKE_READY && !t.sh.outboundOpen && Danger(PcOf(t, c))
          && Rank(PcOf(t, c)) < Rank(PcOf(s, c)))
  {
    choice := Choice(true, false);
  }

  lemma {:induction false} DangerTakesReadyAway(s: State, c: nat) returns (steps: seq<Step>)
    requires Good(s) && Danger(PcOf(s, c)) && s.sh.handshake == HANDSHAKE_READY && !s.sh.outboundOpen
    ensures Run(s, steps).Some? && Run(s, steps).value.sh.handshake != HANDSHAKE_READY
    decreases Rank(PcOf(s, c))
  {
    if PcOf(s, c).Await? { assert Heard(s, StakeOf(s, c)); }
    var choice := DangerAdvances(s, c);
    var step := Advance(c, choice);
    var t := Next(s, step).value;
    if t.sh.handshake != HANDSHAKE_READY {
      steps := [];
    } else {
      StepKeepsGood(s, step);
      steps := DangerTakesReadyAway(t, c);
    }
    RunFrom(s, step, steps);
    steps := [step] + steps;
  }

  /** A ready connection stays ready in every continuation if and only if no
      caller of `ensure_ready` is past its last look at the state. */
  lemma ReadyStaysIff(s: State)
    requires Reachable(s) && s.sh.handshake == HANDSHAKE_READY
    ensures (forall steps :: Run(s, steps).Some? ==> Run(s, steps).value.sh.handshake == HANDSHAKE_READY)
       <==> (forall c: nat :: !Danger(PcOf(s, c)))
  {
    if c: nat :| Danger(PcOf(s, c)) {
      ReachableGood(s);
      var t := Next(s, CloseOutbound).value;
      StepKeepsGood(s, CloseOutbound);
      var steps := DangerTakesReadyAway(t, c);
      RunFrom(s, CloseOutbound, steps);
      assert Run(s, [CloseOutbound] + steps).value.sh.handshake != HANDSHAKE_READY;
    } else {
      forall steps | Run(s, steps).Some? ensures Run(s, steps).value.sh.handshake == HANDSHAKE_READY {
        RunKeepsCalm(s, steps);
      }
    }
  }

  /** When only `ensure_ready` has performed the handshake, READY is final,
      whatever callers do next. */
  lemma ReadyIsFinalAfterEnsureOnly(steps: seq<Step>, more: seq<Step>)
    requires EnsureOnlyRun(steps) && Run(INIT, steps).Some? && Run(INIT, steps).value.sh.handshake == HANDSHAKE_READY
    requires Run(Run(INIT, steps).value, more).Some?
    ensures Run(Run(INIT, steps).value, more).value.sh.handshake == HANDSHAKE_READY
  {
    var s := Run(INIT, steps).value;
    RunKeepsOnce(steps);
    forall c: nat ensures !Danger(PcOf(s, c)) {
      assert Critical(PcOf(s, c)) <==> s.lock == Some(c);
    }
    RunKeepsCalm(s, more);
  }

  lemma Reached(s: State, step: Step) returns (t: State)
    requires Reachable(s) && Next(s, step).Some?
    ensures Reachable(t) && Next(s, step) == Some(t)
  {
    t := Next(s, step).value;
    var steps :| Run(INIT, steps) == Some(s);
    assert (steps + [step])[..|steps|] == steps;
    assert Run(INIT, steps + [step]) == Some(t);
  }

  /** Caller `c` advances to `pc`, everything else as in `t`. */
  lemma Walk(s: State, c: nat, choice: Choice, t: State)
    requires Reachable(s) && AdvanceNext(s, c, choice) == Some(t)
    ensures Reachable(t)
  {
    var u := Reached(s, Advance(c, choice));
  }

  const DEFAULT_INITIALIZE: Call := Call(METHOD_INITIALIZE, Obj(map[]), Ensure)
  const EXPLICIT_INITIALIZE: Call := Call(METHOD_INITIALIZE, Null, Initialize)

  /** Caller 0 calls `ensure_ready` on a new connection. */
  lemma EnsureEnters() returns (s: State)
    ensures Reachable(s) && s == INIT.(callers := map[0 := EnsureLock])
  {
    assert Run(INIT, []) == Some(INIT);
    var r := Reached(INIT, StartEnsure(0));
    assert r == INIT.(callers := map[0 := EnsureFast]) && PcOf(r, 0) == EnsureFast;
    assert r.callers[0 := EnsureLock] == map[0 := EnsureLock];
    s := r.(callers := map[0 := EnsureLock]);
    Walk(r, 0, Choice(false, true), s);
  }

  /** ... enters the critical section ... */
  lemma EnsureTakesLock() returns (s: State)
    ensures Reachable(s) && s == INIT.(callers := map[0 := EnsureCheck], lock := Some(0))
  {
    var t := EnsureEnters();
    assert t.callers[0 := EnsureCheck] == map[0 := EnsureCheck];
    s := t.(callers := map[0 := EnsureCheck], lock := Some(0));
    Walk(t, 0, Choice(false, true), s);
  }

  lemma EnsureLooks() returns (s: State)
    ensures Reachable(s) && s == INIT.(callers := map[0 := EnsureNeed], lock := Some(0))
  {
    var t := EnsureTakesLock();
    assert t.callers[0 := EnsureNeed] == map[0 := EnsureNeed];
    s := t.(callers := map[0 := EnsureNeed]);
    Walk(t, 0, Choice(false, true), s);
  }

  lemma EnsureMustInitialize() returns (s: State)
    ensures Reachable(s) && s == INIT.(callers := map[0 := EnsureMark], lock := Some(0))
  {
    var t := EnsureLooks();
    assert t.callers[0 := EnsureMark] == map[0 := EnsureMark];
    s := t.(callers := map[0 := EnsureMark]);
    Walk(t, 0, Choice(false, true), s);
  }

  /** ... and is about to draw an id. */
  lemma EnsureUnderWay() returns (s: State)
    ensures Reachable(s)
    ensures s == INIT.(callers := map[0 := AllocId(DEFAULT_INITIALIZE)], lock := Some(0),
                       sh := FRESH.(handshake := HANDSHAKE_INITIALIZING))
  {
    var t := EnsureMustInitialize();
    assert t.callers[0 := Gate(DEFAULT_INITIALIZE)] == map[0 := Gate(DEFAULT_INITIALIZE)];
    var u := t.(callers := map[0 := Gate(DEFAULT_INITIALIZE)], sh := FRESH.(handshake := HANDSHAKE_INITIALIZING));
    Walk(t, 0, Choice(false, true), u);
    assert u.callers[0 := AllocId(DEFAULT_INITIALIZE)] == map[0 := AllocId(DEFAULT_INITIALIZE)];
    s := u.(callers := map[0 := AllocId(DEFAULT_INITIALIZE)]);
    Walk(u, 0, Choice(false, true), s);
  }

  /** Caller 1 runs `initialize()` meanwhile ... */
  lemma ExplicitRequestDrawn() returns (s: State)
    ensures Reachable(s) && s.loop.Receiving?
    ensures s.callers == map[0 := AllocId(DEFAULT_INITIALIZE), 1 := Insert(EXPLICIT_INITIALIZE, 1)]
    ensures s.sh == FRESH.(handshake := HANDSHAKE_INITIALIZING, nextId := 2)
  {
    var r := EnsureUnderWay();
    var a := Reached(r, StartInitialize(1, Null));
    assert a == r.(callers := r.callers[1 := Gate(EXPLICIT_INITIALIZE)]);
    var b := a.(callers := a.callers[1 := AllocId(EXPLICIT_INITIALIZE)]);
    Walk(a, 1, Choice(false, true), b);
    s := b.(callers := b.callers[1 := Insert(EXPLICIT_INITIALIZE, 1)], owner := map[1 := 1], sh := b.sh.(nextId := 2));
    Walk(b, 1, Choice(false, true), s);
  }

  lemma ExplicitRequestSent() returns (s: State)
    ensures Reachable(s) && s.loop.Receiving?
    ensures s.callers == map[0 := AllocId(DEFAULT_INITIALIZE), 1 := Await(EXPLICIT_INITIALIZE, 1, 0)]
    ensures s.sh == FRESH.(handshake := HANDSHAKE_INITIALIZING, nextId := 2,
                           pending := map[Integer(1) := 0], channels := [Open],
                           sent := [RequestFrame(METHOD_INITIALIZE, 1, Null)])
  {
    var d := ExplicitRequestDrawn();
    var e := d.(callers := d.callers[1 := Send(EXPLICIT_INITIALIZE, 1, 0)], log := d.log + [Registered(1)],
                sh := d.sh.(pending := d.sh.pending[Integer(1) := 0], channels := d.sh.channels + [Open]));
    Walk(d, 1, Choice(false, true), e);
    var f := RequestFrame(METHOD_INITIALIZE, 1, Null);
    s := e.(callers := e.callers[1 := Await(EXPLICIT_INITIALIZE, 1, 0)], log := e.log + [Sent(f)],
            sh := e.sh.(sent := e.sh.sent + [f]));
    Walk(e, 1, Choice(false, true), s);
  }

  /** ... is answered ... */
  lemma ExplicitRequestAnswered() returns (s: State)
    ensures Reachable(s) && s.callers == map[0 := AllocId(DEFAULT_INITIALIZE), 1 := Await(EXPLICIT_INITIALIZE, 1, 0)]
    ensures s.sh.channels == [Filled(Value(Null))] && s.sh.handshake == HANDSHAKE_INITIALIZING
    ensures s.sh.outboundOpen && |s.sh.sent| == 1 && s.sh.written == 0
  {
    var v := Obj(map["id" := Int(1), "result" := Null]);
    var r := ExplicitRequestSent();
    assert ClassifyIncoming(v) == Response(Integer(1), Value(Null));
    s := Reached(r, Receive(Payload(v)));
  }

  /** ... and returns, with caller 0 still on its way to its store. */
  lemma ExplicitInitializeReturns() returns (s: State)
    ensures Reachable(s) && Danger(PcOf(s, 0)) && PcOf(s, 1).Idle?
    ensures s.sh.handshake == HANDSHAKE_INITIALIZED && s.sh.outboundOpen && |s.sh.sent| == 1 && s.sh.written == 0
  {
    var a := ExplicitRequestAnswered();
    var b := EndRequest(a, 1, EXPLICIT_INITIALIZE, 1, Got(Null), true);
    Walk(a, 1, Choice(false, true), b);
    s := b.(callers := b.callers[1 := Idle], sh := b.sh.(handshake := HANDSHAKE_INITIALIZED));
    Walk(b, 1, Choice(false, true), s);
  }

  /** The restriction to `ensure_ready` is needed: mixing it with an explicit
      `initialize()` and `initialized()` reaches a ready connection that a
      further run makes unready. */
  lemma MixedHandshakeLosesReady() returns (s: State, steps: seq<Step>)
    ensures Reachable(s) && s.sh.handshake == HANDSHAKE_READY
    ensures Run(s, steps).Some? && Run(s, steps).value.sh.handshake != HANDSHAKE_READY
  {
    var go := Advance(1, Choice(false, true));
    s := ExplicitInitializeReturns();
    s := Reached(s, StartInitialized(1));
    s := Reached(s, go);
    assert PcOf(s, 1).NoteSend?;
    s := Reached(s, go);
    s := Reached(s, go);
    assert s.sh.handshake == HANDSHAKE_READY && Danger(PcOf(s, 0));
    ReadyStaysIff(s);
    steps :| Run(s, steps).Some? && Run(s, steps).value.sh.handshake != HANDSHAKE_READY;
  }
}
