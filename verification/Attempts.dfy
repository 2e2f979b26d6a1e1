/** Who succeeds and who fails in `ensure_ready`: every failure is the end of
    an `initialize` attempt of its own, and whoever comes, or has waited, after
    the connection became ready succeeds. */
module Attempts {
  import opened Options
  import opened Json
  import opened Rpc
  import opened Inner
  import opened Engine
  import opened WireOrder
  import opened Readiness

  // ----- the attempts in the history

  /** A request is registered, an `initialize` succeeds, or `ensure_ready`
      fails. */
  predicate Mark(e: Entry) {
    e.Registered? || e.InitOk? || e.EnsureFailed?
  }

  function LastMark(log: seq<Entry>): Option<Entry> {
    if log == [] then None
    else if Mark(log[|log| - 1]) then Some(log[|log| - 1])
    else LastMark(log[..|log| - 1])
  }

  predicate Registration(m: Option<Entry>) {
    m.Some? && m.value.Registered?
  }

  /** A failure ends the attempt begun last, before any success; a success
      ends the attempt with its id. */
  predicate MayEnd(front: seq<Entry>, e: Entry) {
    && (e.EnsureFailed? ==> Registration(LastMark(front)) && Count(front).succeeded == 0)
    && (e.InitOk? ==> LastMark(front) == Some(Registered(e.id)))
  }

  predicate Orderly(log: seq<Entry>) {
    log != [] ==> Orderly(log[..|log| - 1]) && MayEnd(log[..|log| - 1], log[|log| - 1])
  }

  /** A request other than the handshake's own, past the gate. */
  predicate PastGate(pc: Pc) {
    InRequest(pc) && !pc.Gate? && !OfEnsure(pc)
  }

  /** What the last mark is while the holder of the lock is at `pc`. */
  predicate Trying(pc: Pc, m: Option<Entry>) {
    && (OfEnsure(pc) && (pc.Send? || pc.Unsend? || pc.Await? || pc.Expire?) ==> m == Some(Registered(pc.id)))
    && (pc.EnsureReset? ==> Registration(m))
  }

  ghost predicate AttemptInv(s: State) {
    && OnceInv(s) && Orderly(s.log)
    && Trying(Holder(s), LastMark(s.log))
    && (s.sh.handshake != HANDSHAKE_READY ==> forall c: nat :: !PastGate(PcOf(s, c)))
  }

  lemma Marked(log: seq<Entry>, e: Entry)
    ensures LastMark(log + [e]) == if Mark(e) then Some(e) else LastMark(log)
    ensures Orderly(log + [e]) <==> Orderly(log) && MayEnd(log, e)
  {
    assert (log + [e])[..|log|] == log;
  }

  // ----- what each step writes down

  /** Nothing, or something that is no mark. */
  predicate Unmarked(log: seq<Entry>, log': seq<Entry>) {
    log' == log || (|log'| == |log| + 1 && log' == log + [log'[|log|]] && !Mark(log'[|log|]))
  }

  lemma UnmarkedKeeps(log: seq<Entry>, log': seq<Entry>)
    requires Unmarked(log, log')
    ensures LastMark(log') == LastMark(log) && (Orderly(log) ==> Orderly(log'))
  {
    if log' != log { Marked(log, log'[|log|]); }
  }

  lemma SendIsUnmarked(s: State, c: nat, f: Frame, ok: Pc, failed: Pc)
    ensures
      var t := SendThen(s, c, f, ok, failed);
      Unmarked(s.log, t.log) && t.callers == s.callers[c := if s.sh.outboundOpen then ok else failed]
  {
  }

  lemma LoopIsUnmarked(s: State, step: Step)
    requires OfLoop(step) && LoopNext(s, step).Some?
    ensures
      var t := LoopNext(s, step).value;
      Unmarked(s.log, t.log) && t.callers == s.callers && t.lock == s.lock && t.sh.handshake == s.sh.handshake
  {
    if step.Receive? {
      ReceiveLog(s, step.item);
      ReceiveMovesNobody(s, step.item);
    }
  }

  lemma NoteIsUnmarked(s: State, c: nat)
    requires InNote(PcOf(s, c)) && NoteNext(s, c, PcOf(s, c)).Some?
    ensures
      var t := NoteNext(s, c, PcOf(s, c)).value;
      Unmarked(s.log, t.log) && t.lock == s.lock && c in t.callers && t.callers == s.callers[c := t.callers[c]]
      && !InRequest(t.callers[c])
  {
    match PcOf(s, c)
    case NoteSend(name, params, marksReady) =>
      SendIsUnmarked(s, c, NotificationFrame(name, params), if marksReady then InitializedMax else Idle, Idle);
    case ReplySend(reply) => SendIsUnmarked(s, c, reply, Idle, Idle);
    case _ =>
  }

  // ----- the holder

  /** The holder's request goes on, or ends with a success or a failure that
      belongs to its registration. */
  ghost predicate HolderTries(s: State, t: State, c: nat) {
    && t.lock == Some(c) && c in t.callers && t.callers == s.callers[c := t.callers[c]]
    && Orderly(t.log) && Trying(t.callers[c], LastMark(t.log)) && !PastGate(t.callers[c])
  }

  lemma AttemptEnds(s: State, u: State, c: nat, call: Call, id: int, o: Outcome, decodes: bool)
    requires call.purpose.Ensure? && s.lock == Some(c)
    requires u.callers == s.callers && u.lock == s.lock && u.log == s.log
    requires Orderly(s.log) && LastMark(s.log) == Some(Registered(id))
    ensures HolderTries(s, EndRequest(u, c, call, id, o, decodes), c)
  {
    var t := EndRequest(u, c, call, id, o, decodes);
    if o.Got? && decodes {
      Marked(s.log, InitOk(id));
      assert t.log == s.log + [InitOk(id)] && t.callers == s.callers[c := EnsureSet];
    } else {
      assert t.log == s.log && t.callers == s.callers[c := EnsureReset];
    }
  }

  lemma AttemptBegins(s: State, c: nat, choice: Choice)
    requires PcOf(s, c).Gate? || PcOf(s, c).AllocId? || PcOf(s, c).Insert?
    requires s.lock == Some(c) && OfEnsure(PcOf(s, c)) && Orderly(s.log)
    requires s.sh.handshake < HANDSHAKE_INITIALIZED && RequestNext(s, c, PcOf(s, c), choice).Some?
    ensures HolderTries(s, RequestNext(s, c, PcOf(s, c), choice).value, c)
  {
    var pc, t := PcOf(s, c), RequestNext(s, c, PcOf(s, c), choice).value;
    if pc.Insert? {
      Marked(s.log, Registered(pc.id));
      assert t.log == s.log + [Registered(pc.id)];
    } else {
      assert t.log == s.log;
    }
  }

  lemma AttemptAwaits(s: State, c: nat, choice: Choice)
    requires PcOf(s, c).Await? && s.lock == Some(c) && OfEnsure(PcOf(s, c)) && Orderly(s.log)
    requires LastMark(s.log) == Some(Registered(PcOf(s, c).id)) && RequestNext(s, c, PcOf(s, c), choice).Some?
    ensures HolderTries(s, RequestNext(s, c, PcOf(s, c), choice).value, c)
  {
    var Await(call, id, chan) := PcOf(s, c);
    match s.sh.channels[chan]
    case Open =>
    case Filled(Value(v)) => AttemptEnds(s, s, c, call, id, Got(v), choice.decodes);
    case Filled(Failed(e)) => AttemptEnds(s, s, c, call, id, RpcFailure(e), choice.decodes);
    case Closed => AttemptEnds(s, s, c, call, id, ChannelClosed, choice.decodes);
  }

  lemma AttemptSends(s: State, c: nat, choice: Choice)
    requires PcOf(s, c).Send? && s.lock == Some(c) && OfEnsure(PcOf(s, c)) && Orderly(s.log)
    requires LastMark(s.log) == Some(Registered(PcOf(s, c).id)) && RequestNext(s, c, PcOf(s, c), choice).Some?
    ensures HolderTries(s, RequestNext(s, c, PcOf(s, c), choice).value, c)
  {
    var Send(call, id, chan) := PcOf(s, c);
    var f := RequestFrame(call.name, id, call.params);
    var t := SendThen(s, c, f, Await(call, id, chan), Unsend(call, id, chan));
    SendIsUnmarked(s, c, f, Await(call, id, chan), Unsend(call, id, chan));
    UnmarkedKeeps(s.log, t.log);
    assert t.lock == s.lock;
  }

  lemma AttemptStep(s: State, c: nat, choice: Choice)
    requires s.lock == Some(c) && OfEnsure(PcOf(s, c)) && Orderly(s.log) && Trying(PcOf(s, c), LastMark(s.log))
    requires s.sh.handshake < HANDSHAKE_INITIALIZED && RequestNext(s, c, PcOf(s, c), choice).Some?
    ensures HolderTries(s, RequestNext(s, c, PcOf(s, c), choice).value, c)
  {
    var pc := PcOf(s, c);
    if pc.Send? {
      AttemptSends(s, c, choice);
    } else if pc.Unsend? {
      AttemptEnds(s, s.(sh := Forget(s.sh, Integer(pc.id))), c, pc.call, pc.id, SendFailed, choice.decodes);
    } else if pc.Expire? {
      AttemptEnds(s, s.(sh := Forget(s.sh, Integer(pc.id))), c, pc.call, pc.id, TimedOut, choice.decodes);
    } else if pc.Await? {
      AttemptAwaits(s, c, choice);
    } else {
      AttemptBegins(s, c, choice);
    }
  }

  /** Outside the request `ensure_ready` writes no mark, except its failure. */
  lemma EnsureWrites(s: State, c: nat)
    requires InEnsure(PcOf(s, c)) && !PcOf(s, c).EnsureNotify? && EnsureNext(s, c, PcOf(s, c)).Some?
    ensures
      var t := EnsureNext(s, c, PcOf(s, c)).value;
      && c in t.callers && t.callers == s.callers[c := t.callers[c]]
      && (if PcOf(s, c).EnsureReset? then t.log == s.log + [EnsureFailed] else Unmarked(s.log, t.log))
  {
  }

  lemma EnsureGoes(s: State, c: nat)
    requires InEnsure(PcOf(s, c)) && !PcOf(s, c).EnsureNotify? && EnsureNext(s, c, PcOf(s, c)).Some?
    ensures
      var pc := PcOf(EnsureNext(s, c, PcOf(s, c)).value, c);
      !PastGate(pc) && !pc.EnsureReset? && (OfEnsure(pc) ==> pc.Gate?)
  {
  }

  lemma NotifyStep(s: State, c: nat)
    requires PcOf(s, c).EnsureNotify? && EnsureNext(s, c, PcOf(s, c)).Some?
    ensures
      var t := EnsureNext(s, c, PcOf(s, c)).value;
      && Unmarked(s.log, t.log)
      && t.callers == s.callers[c := if s.sh.outboundOpen then EnsureReady else Idle]
  {
    SendIsUnmarked(s, c, NotificationFrame(METHOD_INITIALIZED, Obj(map[])), EnsureReady, Idle);
  }

  lemma EnsureStep(s: State, c: nat)
    requires InEnsure(PcOf(s, c)) && EnsureNext(s, c, PcOf(s, c)).Some? && Orderly(s.log)
    requires PcOf(s, c).EnsureReset? ==> MayEnd(s.log, EnsureFailed)
    ensures
      var t := EnsureNext(s, c, PcOf(s, c)).value;
      && Orderly(t.log) && c in t.callers && t.callers == s.callers[c := t.callers[c]]
      && !PastGate(t.callers[c]) && !t.callers[c].EnsureReset? && (OfEnsure(t.callers[c]) ==> t.callers[c].Gate?)
      && (!PcOf(s, c).EnsureReset? ==> LastMark(t.log) == LastMark(s.log))
  {
    var t := EnsureNext(s, c, PcOf(s, c)).value;
    if PcOf(s, c).EnsureReset? {
      EnsureWrites(s, c);
      EnsureGoes(s, c);
      Marked(s.log, EnsureFailed);
    } else {
      if PcOf(s, c).EnsureNotify? { NotifyStep(s, c); } else { EnsureWrites(s, c); EnsureGoes(s, c); }
      UnmarkedKeeps(s.log, t.log);
    }
  }

  // ----- the others

  /** A request other than the handshake's own, while the connection is not
      ready: it is at the gate and stays out. */
  lemma RawStaysOut(s: State, c: nat, choice: Choice)
    requires PcOf(s, c).Gate? && Plain(PcOf(s, c)) && !OfEnsure(PcOf(s, c)) && s.sh.handshake < HANDSHAKE_READY
    requires RequestNext(s, c, PcOf(s, c), choice).Some?
    ensures RequestNext(s, c, PcOf(s, c), choice).value == At(s, c, Idle)
  {
  }

  lemma NotReadyIsLess(s: State)
    requires OnceInv(s) && s.sh.handshake != HANDSHAKE_READY
    ensures s.sh.handshake < HANDSHAKE_READY
  {
  }

  lemma OnceIsCalm(s: State)
    requires OnceInv(s) && s.sh.handshake == HANDSHAKE_READY
    ensures Calm(s)
  {
    forall c: nat ensures !Danger(PcOf(s, c)) {
      assert Critical(PcOf(s, c)) <==> s.lock == Some(c);
    }
  }

  // ----- every step, every run

  /** A caller that does not hold the lock moves, or one that lets it go. */
  lemma OutsideKeeps(s: State, t: State, c: nat)
    requires AttemptInv(s) && OnceInv(t) && Unmarked(s.log, t.log) && t.lock == s.lock && s.lock != Some(c)
    requires c in t.callers && t.callers == s.callers[c := t.callers[c]]
    requires t.sh.handshake == s.sh.handshake
    requires s.sh.handshake != HANDSHAKE_READY ==> !PastGate(t.callers[c])
    ensures AttemptInv(t)
  {
    UnmarkedKeeps(s.log, t.log);
    forall d: nat | t.sh.handshake != HANDSHAKE_READY ensures !PastGate(PcOf(t, d)) {
      assert !PastGate(PcOf(s, d));
    }
  }

  lemma RawKeepsAttempts(s: State, c: nat, choice: Choice)
    requires AttemptInv(s) && InRequest(PcOf(s, c)) && !OfEnsure(PcOf(s, c))
    requires RequestNext(s, c, PcOf(s, c), choice).Some?
    ensures AttemptInv(RequestNext(s, c, PcOf(s, c), choice).value)
  {
    var t := RequestNext(s, c, PcOf(s, c), choice).value;
    assert Plain(PcOf(s, c));
    if s.sh.handshake == HANDSHAKE_READY {
      ReadyKeepsAttempts(s, Advance(c, choice));
    } else {
      NotReadyIsLess(s);
      assert PcOf(s, c).Gate?;
      RawStaysOut(s, c, choice);
      AdvanceKeepsOnce(s, c, choice);
      assert Critical(PcOf(s, c)) <==> s.lock == Some(c);
      OutsideKeeps(s, t, c);
    }
  }

  /** What is written down in a calm state: no failure, and a success only
      for an explicit `initialize` still under way. */
  predicate CalmEntry(pc: Pc, e: Entry) {
    && !e.EnsureFailed? && (e.EnsureOk? ==> e.handshake == HANDSHAKE_READY)
    && (e.InitOk? ==> InRequest(pc) && pc.call.purpose.Initialize?)
  }

  predicate CalmLog(pc: Pc, log: seq<Entry>, log': seq<Entry>) {
    log' == log || (|log'| == |log| + 1 && log' == log + [log'[|log|]] && CalmEntry(pc, log'[|log|]))
  }

  lemma CalmRequestWrites(s: State, c: nat, choice: Choice)
    requires InRequest(PcOf(s, c)) && !Danger(PcOf(s, c)) && RequestNext(s, c, PcOf(s, c), choice).Some?
    ensures CalmLog(PcOf(s, c), s.log, RequestNext(s, c, PcOf(s, c), choice).value.log)
  {
  }

  lemma CalmEnsureWrites(s: State, c: nat)
    requires InEnsure(PcOf(s, c)) && !Danger(PcOf(s, c)) && s.sh.handshake == HANDSHAKE_READY
    requires EnsureNext(s, c, PcOf(s, c)).Some?
    ensures CalmLog(PcOf(s, c), s.log, EnsureNext(s, c, PcOf(s, c)).value.log)
  {
  }

  lemma CalmWrites(s: State, step: Step)
    requires Calm(s) && Next(s, step).Some?
    ensures CalmLog(if step.Advance? then PcOf(s, step.c) else Idle, s.log, Next(s, step).value.log)
  {
    if step.Advance? {
      var pc := PcOf(s, step.c);
      if InRequest(pc) {
        CalmRequestWrites(s, step.c, step.choice);
      } else if InNote(pc) {
        NoteIsUnmarked(s, step.c);
      } else {
        CalmEnsureWrites(s, step.c);
      }
    } else if OfLoop(step) {
      LoopIsUnmarked(s, step);
    }
  }

  /** Once ready, registrations are other requests', and nobody is in danger of
      failing. */
  lemma ReadyKeepsAttempts(s: State, step: Step)
    requires AttemptInv(s) && s.sh.handshake == HANDSHAKE_READY && EnsureOnly(step) && Next(s, step).Some?
    ensures AttemptInv(Next(s, step).value)
  {
    var t := Next(s, step).value;
    OnceIsCalm(s);
    StepKeepsCalm(s, step);
    StepKeepsOnce(s, step);
    CalmWrites(s, step);
    if t.log != s.log { Marked(s.log, t.log[|s.log|]); }
    assert !Danger(Holder(t));
  }

  lemma NoteKeepsAttempts(s: State, c: nat)
    requires AttemptInv(s) && InNote(PcOf(s, c)) && NoteNext(s, c, PcOf(s, c)).Some?
    ensures AttemptInv(NoteNext(s, c, PcOf(s, c)).value)
  {
    var t := NoteNext(s, c, PcOf(s, c)).value;
    assert Plain(PcOf(s, c)) && (Critical(PcOf(s, c)) <==> s.lock == Some(c));
    NoteStep(s, c);
    BystanderKeepsOnce(s, t, c);
    NoteIsUnmarked(s, c);
    OutsideKeeps(s, t, c);
  }

  lemma HolderKeepsAttempts(s: State, c: nat, choice: Choice)
    requires AttemptInv(s) && OfEnsure(PcOf(s, c)) && RequestNext(s, c, PcOf(s, c), choice).Some?
    ensures AttemptInv(RequestNext(s, c, PcOf(s, c), choice).value)
  {
    var t := RequestNext(s, c, PcOf(s, c), choice).value;
    assert Plain(PcOf(s, c)) && (Critical(PcOf(s, c)) <==> s.lock == Some(c));
    AttemptStep(s, c, choice);
    AdvanceKeepsOnce(s, c, choice);
    NobodyElse(s, t, c);
  }

  /** Before the connection is ready nobody but the holder is past the gate. */
  lemma NobodyElse(s: State, t: State, c: nat)
    requires AttemptInv(s) && s.sh.handshake != HANDSHAKE_READY
    requires c in t.callers && t.callers == s.callers[c := t.callers[c]] && !PastGate(t.callers[c])
    ensures forall d: nat :: !PastGate(PcOf(t, d))
  {
    forall d: nat ensures !PastGate(PcOf(t, d)) {
      assert !PastGate(PcOf(s, d));
    }
  }

  lemma EnsureKeepsAttempts(s: State, c: nat)
    requires AttemptInv(s) && s.sh.handshake != HANDSHAKE_READY
    requires InEnsure(PcOf(s, c)) && EnsureNext(s, c, PcOf(s, c)).Some?
    ensures AttemptInv(EnsureNext(s, c, PcOf(s, c)).value)
  {
    var t := EnsureNext(s, c, PcOf(s, c)).value;
    if PcOf(s, c).EnsureReset? { ResetMayFail(s, c); }
    EnsureStep(s, c);
    EnsureKeepsOnce(s, c);
    NobodyElse(s, t, c);
    HolderAfter(s, t, c);
  }

  lemma ResetMayFail(s: State, c: nat)
    requires AttemptInv(s) && PcOf(s, c).EnsureReset?
    ensures MayEnd(s.log, EnsureFailed)
  {
    assert Critical(PcOf(s, c)) <==> s.lock == Some(c);
    assert Holder(s) == PcOf(s, c);
  }

  lemma EnsureKeepsOnce(s: State, c: nat)
    requires OnceInv(s) && InEnsure(PcOf(s, c)) && EnsureNext(s, c, PcOf(s, c)).Some?
    ensures OnceInv(EnsureNext(s, c, PcOf(s, c)).value)
  {
    AdvanceKeepsOnce(s, c, Choice(false, false));
  }

  lemma HolderAfter(s: State, t: State, c: nat)
    requires OnceInv(s) && OnceInv(t) && Trying(Holder(s), LastMark(s.log))
    requires InEnsure(PcOf(s, c)) && EnsureNext(s, c, PcOf(s, c)) == Some(t)
    requires c in t.callers && t.callers == s.callers[c := t.callers[c]]
    requires !t.callers[c].EnsureReset? && (OfEnsure(t.callers[c]) ==> t.callers[c].Gate?)
    requires !PcOf(s, c).EnsureReset? ==> LastMark(t.log) == LastMark(s.log)
    ensures Trying(Holder(t), LastMark(t.log))
  {
    if t.lock.Some? && t.lock.value != c {
      assert t.lock == s.lock;
    }
  }

  lemma AdvanceKeepsAttempts(s: State, c: nat, choice: Choice)
    requires AttemptInv(s) && AdvanceNext(s, c, choice).Some?
    ensures AttemptInv(AdvanceNext(s, c, choice).value)
  {
    var pc := PcOf(s, c);
    if s.sh.handshake == HANDSHAKE_READY {
      ReadyKeepsAttempts(s, Advance(c, choice));
    } else if OfEnsure(pc) {
      HolderKeepsAttempts(s, c, choice);
    } else if InRequest(pc) {
      RawKeepsAttempts(s, c, choice);
    } else if InNote(pc) {
      NoteKeepsAttempts(s, c);
    } else {
      EnsureKeepsAttempts(s, c);
    }
  }

  lemma EnterKeepsAttempts(s: State, c: nat, pc: Pc)
    requires AttemptInv(s) && Enter(s, c, pc).Some? && Plain(pc) && !Critical(pc) && !PastGate(pc)
    ensures AttemptInv(Enter(s, c, pc).value)
  {
    assert Critical(PcOf(s, c)) <==> s.lock == Some(c);
    EnterKeepsOnce(s, c, pc);
    OutsideKeeps(s, At(s, c, pc), c);
  }

  lemma UntouchedKeepsAttempts(s: State, t: State)
    requires AttemptInv(s) && OnceInv(t) && Unmarked(s.log, t.log) && t.callers == s.callers && t.lock == s.lock
    requires t.sh.handshake == s.sh.handshake
    ensures AttemptInv(t)
  {
    UnmarkedKeeps(s.log, t.log);
    forall d: nat | t.sh.handshake != HANDSHAKE_READY ensures !PastGate(PcOf(t, d)) {
      assert !PastGate(PcOf(s, d));
    }
  }

  lemma StepKeepsAttempts(s: State, step: Step)
    requires AttemptInv(s) && EnsureOnly(step) && Next(s, step).Some?
    ensures AttemptInv(Next(s, step).value)
  {
    if step.Advance? {
      AdvanceKeepsAttempts(s, step.c, step.choice);
    } else if Enters(step) {
      EntryKeepsAttempts(s, step);
    } else {
      StepKeepsOnce(s, step);
      if OfLoop(step) { LoopIsUnmarked(s, step); }
      UntouchedKeepsAttempts(s, Next(s, step).value);
    }
  }

  predicate Enters(step: Step) {
    step.StartRequest? || step.StartNotification? || step.StartEnsure? || step.StartReply?
  }

  lemma EntryKeepsAttempts(s: State, step: Step)
    requires AttemptInv(s) && EnsureOnly(step) && Enters(step) && Next(s, step).Some?
    ensures AttemptInv(Next(s, step).value)
  {
    EnterKeepsAttempts(s, step.c, EntryPoint(step));
  }

  function EntryPoint(step: Step): Pc
    requires Enters(step)
  {
    match step
    case StartRequest(_, name, params) => Gate(Call(name, params, Raw))
    case StartNotification(_, name, params) => NoteGate(name, params)
    case StartEnsure(_) => EnsureFast
    case StartReply(_, reply) => ReplySend(reply)
  }

  lemma {:induction false} RunKeepsAttempts(steps: seq<Step>)
    requires EnsureOnlyRun(steps) && Run(INIT, steps).Some?
    ensures AttemptInv(Run(INIT, steps).value)
  {
    if steps == [] {
      RunKeepsOnce(steps);
    } else {
      var front := steps[..|steps| - 1];
      RunKeepsAttempts(front);
      StepKeepsAttempts(Run(INIT, front).value, steps[|steps| - 1]);
    }
  }

  // ----- every failure is the end of its own attempt

  /** Entry `p` ends the attempt that the request registered at `q` was: no
      other request was registered, succeeded or failed in between. */
  predicate EndsAttemptOf(log: seq<Entry>, q: nat, p: nat, id: int) {
    && q < p < |log| && log[q] == Registered(id)
    && forall r :: q < r < p ==> !log[r].Registered? && !log[r].InitOk? && !log[r].EnsureFailed?
  }

  lemma {:induction false} MarkPosition(log: seq<Entry>) returns (q: nat)
    requires LastMark(log).Some?
    ensures q < |log| && log[q] == LastMark(log).value && forall r :: q < r < |log| ==> !Mark(log[r])
  {
    q := |log| - 1;
    if !Mark(log[q]) { q := MarkPosition(log[..|log| - 1]); }
  }

  lemma {:induction false} OrderlyAt(log: seq<Entry>, p: nat)
    requires Orderly(log) && p < |log|
    ensures MayEnd(log[..p], log[p])
  {
    if p < |log| - 1 {
      var front := log[..|log| - 1];
      OrderlyAt(front, p);
      assert front[..p] == log[..p];
    }
  }

  lemma {:induction false} NoneSucceeded(log: seq<Entry>, r: nat)
    requires Count(log).succeeded == 0 && r < |log|
    ensures !log[r].InitOk?
  {
    if r < |log| - 1 { NoneSucceeded(log[..|log| - 1], r); }
  }

  /** With only `ensure_ready` doing the handshake, each of its failures ends
      an `initialize` attempt of its own, made when none had succeeded before,
      and each success ends the attempt with its id. */
  lemma FailuresAreAttempts(steps: seq<Step>, p: nat) returns (q: nat, id: int)
    requires EnsureOnlyRun(steps) && Run(INIT, steps).Some? && p < |Run(INIT, steps).value.log|
    requires Run(INIT, steps).value.log[p].EnsureFailed? || Run(INIT, steps).value.log[p].InitOk?
    ensures
      var log := Run(INIT, steps).value.log;
      && EndsAttemptOf(log, q, p, id)
      && (log[p].InitOk? ==> log[p].id == id)
      && (log[p].EnsureFailed? ==> forall r :: 0 <= r < p ==> !log[r].InitOk?)
  {
    var log := Run(INIT, steps).value.log;
    RunKeepsAttempts(steps);
    OrderlyAt(log, p);
    var front := log[..p];
    q := MarkPosition(front);
    id := front[q].id;
    assert forall r :: q < r < p ==> log[r] == front[r];
    forall r | 0 <= r < p && log[p].EnsureFailed? ensures !log[r].InitOk? {
      NoneSucceeded(front, r);
      assert log[r] == front[r];
    }
  }

  // ----- whoever comes to a ready connection succeeds

  /** From a calm, ready state on, whatever callers do, no call of
      `ensure_ready` fails, and none returns on a connection not ready. */
  lemma {:induction false} NoFailureOnceReady(s: State, more: seq<Step>)
    requires Calm(s) && Run(s, more).Some?
    ensures
      var log := Run(s, more).value.log;
      s.log <= log && forall p :: |s.log| <= p < |log| ==>
        !log[p].EnsureFailed? && (log[p].EnsureOk? ==> log[p].handshake == HANDSHAKE_READY)
  {
    if more != [] {
      var front := more[..|more| - 1];
      NoFailureOnceReady(s, front);
      RunKeepsCalm(s, front);
      CalmWrites(Run(s, front).value, more[|more| - 1]);
    }
  }

  /** The same after runs in which only `ensure_ready` did the handshake: once
      the connection is ready no call fails any more. */
  lemma NoFailureAfterReady(steps: seq<Step>, more: seq<Step>)
    requires EnsureOnlyRun(steps) && Run(INIT, steps).Some? && Run(INIT, steps).value.sh.handshake == HANDSHAKE_READY
    requires Run(Run(INIT, steps).value, more).Some?
    ensures
      var before, log := Run(INIT, steps).value.log, Run(Run(INIT, steps).value, more).value.log;
      before <= log && forall p :: |before| <= p < |log| ==> !log[p].EnsureFailed?
  {
    RunKeepsOnce(steps);
    OnceIsCalm(Run(INIT, steps).value);
    NoFailureOnceReady(Run(INIT, steps).value, more);
  }

  /** About to look at the state: for the first time, or after waiting. */
  predicate Waits(pc: Pc) {
    pc.EnsureFast? || pc.EnsureLock? || pc.EnsureCheck?
  }

  lemma WaiterMoves(s: State, c: nat)
    requires s.sh.handshake == HANDSHAKE_READY && Waits(PcOf(s, c)) && EnsureNext(s, c, PcOf(s, c)).Some?
    ensures
      var t := EnsureNext(s, c, PcOf(s, c)).value;
      !Waits(PcOf(t, c)) ==> PcOf(t, c) == Idle && t.log == s.log + [EnsureOk(HANDSHAKE_READY)]
  {
  }

  /** Other callers' steps leave a caller where it is. */
  lemma OthersStepsKeep(s: State, step: Step, c: nat)
    requires Next(s, step).Some? && !PcOf(s, c).Idle? && (step.Advance? ==> step.c != c)
    ensures PcOf(Next(s, step).value, c) == PcOf(s, c)
  {
    if OfLoop(step) {
      LoopIsUnmarked(s, step);
    } else if step.Advance? {
      OtherAdvanceKeeps(s, step.c, step.choice, c);
    }
  }

  lemma OtherAdvanceKeeps(s: State, d: nat, choice: Choice, c: nat)
    requires AdvanceNext(s, d, choice).Some? && d != c
    ensures PcOf(AdvanceNext(s, d, choice).value, c) == PcOf(s, c)
  {
    if InRequest(PcOf(s, d)) {
      OtherRequestKeeps(s, d, choice, c);
    } else if InNote(PcOf(s, d)) {
      NoteIsUnmarked(s, d);
    } else if PcOf(s, d).EnsureNotify? {
      NotifyStep(s, d);
    } else {
      EnsureWrites(s, d);
    }
  }

  lemma OtherRequestKeeps(s: State, d: nat, choice: Choice, c: nat)
    requires InRequest(PcOf(s, d)) && RequestNext(s, d, PcOf(s, d), choice).Some? && d != c
    ensures PcOf(RequestNext(s, d, PcOf(s, d), choice).value, c) == PcOf(s, c)
  {
    match PcOf(s, d)
    case Unsend(call, id, chan) =>
      EndMovesOne(s, s.(sh := Forget(s.sh, Integer(id))), d, call, id, SendFailed, choice.decodes, c);
    case Expire(call, id, chan) =>
      EndMovesOne(s, s.(sh := Forget(s.sh, Integer(id))), d, call, id, TimedOut, choice.decodes, c);
    case Await(call, id, chan) => OtherAwaitKeeps(s, d, choice, c);
    case Send(call, id, chan) =>
      SendIsUnmarked(s, d, RequestFrame(call.name, id, call.params), Await(call, id, chan), Unsend(call, id, chan));
    case _ =>
  }

  lemma EndMovesOne(s: State, u: State, d: nat, call: Call, id: int, o: Outcome, decodes: bool, c: nat)
    requires u.callers == s.callers && d != c
    ensures PcOf(EndRequest(u, d, call, id, o, decodes), c) == PcOf(s, c)
  {
  }

  lemma OtherAwaitKeeps(s: State, d: nat, choice: Choice, c: nat)
    requires PcOf(s, d).Await? && RequestNext(s, d, PcOf(s, d), choice).Some? && d != c
    ensures PcOf(RequestNext(s, d, PcOf(s, d), choice).value, c) == PcOf(s, c)
  {
    var Await(call, id, chan) := PcOf(s, d);
    match s.sh.channels[chan]
    case Open =>
    case Filled(Value(v)) => EndMovesOne(s, s, d, call, id, Got(v), choice.decodes, c);
    case Filled(Failed(e)) => EndMovesOne(s, s, d, call, id, RpcFailure(e), choice.decodes, c);
    case Closed => EndMovesOne(s, s, d, call, id, ChannelClosed, choice.decodes, c);
  }

  /** At a ready connection such a caller either still waits after a step, or
      has returned `Ok`, having written down nothing else. */
  lemma WaiterStep(s: State, step: Step, c: nat)
    requires s.sh.handshake == HANDSHAKE_READY && Waits(PcOf(s, c)) && Next(s, step).Some?
    ensures
      var t := Next(s, step).value;
      !Waits(PcOf(t, c)) ==>
        step.Advance? && step.c == c && PcOf(t, c) == Idle && t.log == s.log + [EnsureOk(HANDSHAKE_READY)]
  {
    if step.Advance? && step.c == c {
      WaiterMoves(s, c);
    } else {
      OthersStepsKeep(s, step, c);
    }
  }

  /** Whatever happens after the connection became ready, a caller that waits
      then leaves `ensure_ready` only with `Ok`. */
  lemma {:induction false} WaitersLeaveWithOk(s: State, more: seq<Step>, c: nat) returns (k: nat)
    requires Calm(s) && Waits(PcOf(s, c))
    requires Run(s, more).Some? && !Waits(PcOf(Run(s, more).value, c))
    ensures k < |more| && more[k].Advance? && more[k].c == c
    ensures Run(s, more[..k]).Some? && Waits(PcOf(Run(s, more[..k]).value, c))
    ensures
      var u, v := Run(s, more[..k]).value, Next(Run(s, more[..k]).value, more[k]);
      v.Some? && PcOf(v.value, c) == Idle && v.value.log == u.log + [EnsureOk(HANDSHAKE_READY)]
  {
    var n := |more| - 1;
    var front := more[..n];
    if Waits(PcOf(Run(s, front).value, c)) {
      k := n;
      RunKeepsCalm(s, front);
      WaiterStep(Run(s, front).value, more[n], c);
    } else {
      k := WaitersLeaveWithOk(s, front, c);
      assert front[..k] == more[..k];
    }
  }

  /** After these steps the caller has returned `Ok`, and nothing was written
      down since. */
  ghost predicate Leaves(s: State, more: seq<Step>, c: nat) {
    match Run(s, more)
    case Some(t) => PcOf(t, c) == Idle && t.log != [] && t.log[|t.log| - 1] == EnsureOk(HANDSHAKE_READY)
    case None => false
  }

  /** ... and it can leave: if the lock is taken, its holder finds the
      connection ready and lets go. */
  lemma WaiterCanLeave(steps: seq<Step>, c: nat) returns (more: seq<Step>)
    requires EnsureOnlyRun(steps) && Run(INIT, steps).Some?
    requires Run(INIT, steps).value.sh.handshake == HANDSHAKE_READY && Waits(PcOf(Run(INIT, steps).value, c))
    ensures |more| <= 3 && Leaves(Run(INIT, steps).value, more, c)
  {
    RunKeepsOnce(steps);
    var s := Run(INIT, steps).value;
    if !PcOf(s, c).EnsureLock? {
      more := LeaveAtOnce(s, c);
    } else if s.lock.Some? {
      more := LeaveAfter(s, c, s.lock.value);
    } else {
      more := LockAndLeave(s, c);
    }
  }

  lemma LeavesLater(s: State, step: Step, t: State, more: seq<Step>, c: nat)
    requires Next(s, step) == Some(t) && Leaves(t, more, c)
    ensures Leaves(s, [step] + more, c)
  {
    RunAfter(s, step, t, more);
  }

  lemma LeaveAfter(s: State, c: nat, d: nat) returns (more: seq<Step>)
    requires OnceInv(s) && s.sh.handshake == HANDSHAKE_READY && PcOf(s, c).EnsureLock? && s.lock == Some(d)
    ensures |more| == 3 && Leaves(s, more, c)
  {
    assert Critical(PcOf(s, c)) <==> s.lock == Some(c);
    var t := HolderLetsGo(s, d);
    var last := LockAndLeave(t, c);
    more := [Advance(d, Choice(false, false))] + last;
    LeavesLater(s, Advance(d, Choice(false, false)), t, last, c);
  }

  lemma LeaveAtOnce(s: State, c: nat) returns (more: seq<Step>)
    requires PcOf(s, c).EnsureFast? || PcOf(s, c).EnsureCheck?
    requires s.sh.handshake == HANDSHAKE_READY
    ensures |more| == 1 && Leaves(s, more, c)
  {
    var step := Advance(c, Choice(false, false));
    more := [step];
    assert more[..0] == [];
    assert Run(s, more) == Next(s, step);
  }

  lemma HolderLetsGo(s: State, d: nat) returns (t: State)
    requires OnceInv(s) && s.sh.handshake == HANDSHAKE_READY && s.lock == Some(d)
    ensures Next(s, Advance(d, Choice(false, false))) == Some(t)
    ensures t.lock == None && t.sh.handshake == HANDSHAKE_READY && forall c :: c != d ==> PcOf(t, c) == PcOf(s, c)
  {
    assert Critical(PcOf(s, d)) && PcOf(s, d).EnsureCheck?;
    t := Next(s, Advance(d, Choice(false, false))).value;
  }

  lemma LockAndLeave(s: State, c: nat) returns (more: seq<Step>)
    requires PcOf(s, c).EnsureLock? && s.lock == None && s.sh.handshake == HANDSHAKE_READY
    ensures |more| == 2 && Leaves(s, more, c)
  {
    var t := Lock(s, c);
    var last := LeaveAtOnce(t, c);
    more := [Advance(c, Choice(false, false))] + last;
    LeavesLater(s, Advance(c, Choice(false, false)), t, last, c);
  }

  lemma Lock(s: State, c: nat) returns (t: State)
    requires PcOf(s, c).EnsureLock? && s.lock == None
    ensures Next(s, Advance(c, Choice(false, false))) == Some(t)
    ensures PcOf(t, c) == EnsureCheck && t.sh == s.sh
  {
    t := At(s.(lock := Some(c)), c, EnsureCheck);
  }
}
