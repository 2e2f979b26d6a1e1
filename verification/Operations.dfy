/** What the client's public operations come to when nothing goes wrong, and
    where they are refused, as runs of the transition system. */
module Operations {
  import opened Options
  import opened Json
  import opened Rpc
  import opened Inner
  import opened Engine

  const GO: Choice := Choice(false, true)

  lemma OneStep(s: State, step: Step)
    ensures Run(s, [step]) == Next(s, step)
  {
    assert [step][..0] == [];
  }

  lemma TwoSteps(s: State, step: Step, next: Step)
    requires Next(s, step).Some?
    ensures Run(s, [step, next]) == Next(Next(s, step).value, next)
  {
    OneStep(Next(s, step).value, next);
    assert [step, next] == [step] + [next];
    RunFrom(s, step, [next]);
  }

  lemma {:induction false} Chain(s: State, front: seq<Step>, t: State, back: seq<Step>)
    requires Run(s, front) == Some(t)
    ensures Run(s, front + back) == Run(t, back)
    decreases |back|
  {
    if back == [] {
      assert front + back == front;
    } else {
      var init := back[..|back| - 1];
      Chain(s, front, t, init);
      assert (front + back)[..|front + back| - 1] == front + init;
    }
  }

  /** Only caller `c` has moved, and it is back outside. */
  ghost predicate Returned(s: State, t: State, c: nat) {
    && t.callers == s.callers[c := Idle] && t.lock == s.lock && t.loop == s.loop && t.outcomes == s.outcomes
    && t.received == s.received && t.handled == s.handled && t.effects == s.effects && t.owner == s.owner
  }

  // ----- notifications and replies

  /** `send_raw_notification` of a ready client, or of `initialized` at any
      time: the notification goes out with its own name and parameters. */
  lemma NotificationGoesOut(s: State, c: nat, name: string, params: Json) returns (t: State)
    requires PcOf(s, c).Idle? && s.sh.outboundOpen && CanSend(s.sh)
    requires name == "initialized" || s.sh.handshake >= HANDSHAKE_READY
    ensures Run(s, [StartNotification(c, name, params), Advance(c, GO)] + [Advance(c, GO)]) == Some(t)
    ensures Returned(s, t, c) && t.sh == s.sh.(sent := s.sh.sent + [NotificationFrame(name, params)])
    ensures t.log == s.log + [Sent(NotificationFrame(name, params))]
  {
    var start := StartNotification(c, name, params);
    var a := At(s, c, NoteGate(name, params));
    var b := At(a, c, NoteSend(name, params, false));
    TwoSteps(s, start, Advance(c, GO));
    OneStep(b, Advance(c, GO));
    Chain(s, [start, Advance(c, GO)], b, [Advance(c, GO)]);
    t := Next(b, Advance(c, GO)).value;
    assert t.callers == s.callers[c := Idle];
  }

  /** Any other notification of a client that is not ready is refused, and
      nothing happens. */
  lemma NotificationIsRefused(s: State, c: nat, name: string, params: Json) returns (t: State)
    requires PcOf(s, c).Idle? && name != "initialized" && s.sh.handshake < HANDSHAKE_READY
    ensures Run(s, [StartNotification(c, name, params), Advance(c, GO)]) == Some(t)
    ensures Returned(s, t, c) && t.sh == s.sh && t.log == s.log
  {
    TwoSteps(s, StartNotification(c, name, params), Advance(c, GO));
    t := At(At(s, c, NoteGate(name, params)), c, Idle);
    assert t.callers == s.callers[c := Idle];
  }

  /** `respond_server_request` and `respond_server_request_error` */
  lemma ReplyGoesOut(s: State, c: nat, reply: Frame) returns (t: State)
    requires PcOf(s, c).Idle? && s.sh.outboundOpen && CanSend(s.sh) && (reply.ResultFrame? || reply.ErrorFrame?)
    ensures Run(s, [StartReply(c, reply), Advance(c, GO)]) == Some(t)
    ensures Returned(s, t, c) && t.sh == s.sh.(sent := s.sh.sent + [reply]) && t.log == s.log + [Sent(reply)]
  {
    TwoSteps(s, StartReply(c, reply), Advance(c, GO));
    t := Next(At(s, c, ReplySend(reply)), Advance(c, GO)).value;
    assert t.callers == s.callers[c := Idle];
  }

  /** `initialized()` on an initialized connection makes it ready. */
  lemma InitializedGoesOut(s: State, c: nat) returns (steps: seq<Step>, t: State)
    requires PcOf(s, c).Idle? && s.sh.outboundOpen && CanSend(s.sh)
    requires HANDSHAKE_INITIALIZED <= s.sh.handshake <= HANDSHAKE_READY
    ensures steps == [StartInitialized(c), Advance(c, GO)] + [Advance(c, GO), Advance(c, GO)]
    ensures Run(s, steps) == Some(t) && Returned(s, t, c)
    ensures t.sh == s.sh.(sent := s.sh.sent + [NotificationFrame("initialized", Obj(map[]))],
                          handshake := HANDSHAKE_READY)
  {
    var go := Advance(c, GO);
    steps := [StartInitialized(c), go] + [go, go];
    var b := PassesInitializedGate(s, c);
    Chain(s, [StartInitialized(c), go], b, [go, go]);
    t := SendsAndMarks(b, c);
    assert t.callers == s.callers[c := Idle];
  }

  lemma PassesInitializedGate(s: State, c: nat) returns (t: State)
    requires PcOf(s, c).Idle? && s.sh.handshake >= HANDSHAKE_INITIALIZED
    ensures Run(s, [StartInitialized(c), Advance(c, GO)]) == Some(t)
    ensures t == At(At(s, c, InitializedGate), c, NoteSend("initialized", Obj(map[]), true))
  {
    TwoSteps(s, StartInitialized(c), Advance(c, GO));
    t := At(At(s, c, InitializedGate), c, NoteSend("initialized", Obj(map[]), true));
  }

  lemma SendsAndMarks(s: State, c: nat) returns (t: State)
    requires PcOf(s, c) == NoteSend("initialized", Obj(map[]), true) && s.sh.outboundOpen && CanSend(s.sh)
    requires s.sh.handshake <= HANDSHAKE_READY
    ensures Run(s, [Advance(c, GO), Advance(c, GO)]) == Some(t) && Returned(s, t, c)
    ensures t.sh == s.sh.(sent := s.sh.sent + [NotificationFrame("initialized", Obj(map[]))],
                          handshake := HANDSHAKE_READY)
  {
    var f := NotificationFrame("initialized", Obj(map[]));
    var d := At(Log(s.(sh := Enqueue(s.sh, f)), Sent(f)), c, InitializedMax);
    assert Next(s, Advance(c, GO)) == Some(d);
    TwoSteps(s, Advance(c, GO), Advance(c, GO));
    t := At(d.(sh := FetchMax(d.sh, HANDSHAKE_READY)), c, Idle);
    assert t.callers == s.callers[c := Idle];
  }

  lemma InitializedIsRefused(s: State, c: nat) returns (t: State)
    requires PcOf(s, c).Idle? && s.sh.handshake < HANDSHAKE_INITIALIZED
    ensures Run(s, [StartInitialized(c), Advance(c, GO)]) == Some(t)
    ensures Returned(s, t, c) && t.sh == s.sh && t.log == s.log
  {
    TwoSteps(s, StartInitialized(c), Advance(c, GO));
    t := At(At(s, c, InitializedGate), c, Idle);
    assert t.callers == s.callers[c := Idle];
  }

  // ----- requests

  /** A request is refused at the gate, and nothing happens: one other than
      `initialize` while the client is not ready, `initialize` once the
      client is initialized. */
  lemma RequestIsRefused(s: State, c: nat, name: string, params: Json) returns (t: State)
    requires PcOf(s, c).Idle?
    requires if name == "initialize" then s.sh.handshake >= HANDSHAKE_INITIALIZED
             else s.sh.handshake < HANDSHAKE_READY
    ensures Run(s, [StartRequest(c, name, params), Advance(c, GO)]) == Some(t)
    ensures Returned(s, t, c) && t.sh == s.sh && t.log == s.log
  {
    TwoSteps(s, StartRequest(c, name, params), Advance(c, GO));
    t := At(At(s, c, Gate(Call(name, params, Raw))), c, Idle);
    assert t.callers == s.callers[c := Idle];
  }

  lemma InitializeIsRefused(s: State, c: nat, params: Json) returns (t: State)
    requires PcOf(s, c).Idle? && s.sh.handshake >= HANDSHAKE_INITIALIZED
    ensures Run(s, [StartInitialize(c, params), Advance(c, GO)]) == Some(t)
    ensures Returned(s, t, c) && t.sh == s.sh && t.log == s.log
  {
    TwoSteps(s, StartInitialize(c, params), Advance(c, GO));
    t := At(At(s, c, Gate(Call("initialize", params, Initialize))), c, Idle);
    assert t.callers == s.callers[c := Idle];
  }

  /** The gate lets the call through. */
  predicate Passes(h: nat, call: Call) {
    if call.name == "initialize" then h < HANDSHAKE_INITIALIZED else call.purpose.Raw? && h >= HANDSHAKE_READY
  }

  /** The request is on the queue and registered, under the next id and a
      channel of its own, and its caller waits. */
  ghost predicate Waiting(s: State, t: State, c: nat, call: Call) {
    var id, chan := s.sh.nextId, |s.sh.channels|;
    && t.callers == s.callers[c := Await(call, id, chan)] && t.loop == s.loop && t.lock == s.lock
    && t.outcomes == s.outcomes
    && t.sh == s.sh.(nextId := id + 1, pending := s.sh.pending[Integer(id) := chan],
                     channels := s.sh.channels + [Open],
                     sent := s.sh.sent + [RequestFrame(call.name, id, call.params)])
  }

  lemma Registers(s: State, c: nat, call: Call) returns (t: State)
    requires PcOf(s, c) == Gate(call) && Passes(s.sh.handshake, call) && Integer(s.sh.nextId) !in s.sh.pending
    ensures Run(s, [Advance(c, GO), Advance(c, GO)] + [Advance(c, GO)]) == Some(t)
    ensures t.callers == s.callers[c := Send(call, s.sh.nextId, |s.sh.channels|)]
    ensures t.loop == s.loop && t.lock == s.lock && t.outcomes == s.outcomes
    ensures t.sh == s.sh.(nextId := s.sh.nextId + 1, channels := s.sh.channels + [Open],
                          pending := s.sh.pending[Integer(s.sh.nextId) := |s.sh.channels|])
  {
    var go, id := Advance(c, GO), s.sh.nextId;
    var a := At(s, c, AllocId(call));
    var b := At(s.(sh := s.sh.(nextId := id + 1), owner := s.owner[id := c]), c, Insert(call, id));
    assert At(a.(sh := b.sh, owner := b.owner), c, Insert(call, id)).callers == b.callers;
    assert Next(s, go) == Some(a);
    assert Next(a, go) == Some(b);
    TwoSteps(s, go, go);
    Chain(s, [go, go], b, [go]);
    OneStep(b, go);
    t := Next(b, go).value;
    assert t.callers == s.callers[c := Send(call, id, |s.sh.channels|)];
  }

  lemma GoesOut(s: State, c: nat, call: Call) returns (steps: seq<Step>, t: State)
    requires PcOf(s, c) == Gate(call) && Passes(s.sh.handshake, call) && Integer(s.sh.nextId) !in s.sh.pending
    requires s.sh.outboundOpen && CanSend(s.sh)
    ensures Run(s, steps) == Some(t) && Waiting(s, t, c, call)
  {
    var go, three := Advance(c, GO), [Advance(c, GO), Advance(c, GO)] + [Advance(c, GO)];
    var u := Registers(s, c, call);
    steps := three + [go];
    Chain(s, three, u, [go]);
    OneStep(u, go);
    t := Next(u, go).value;
    assert t.callers == s.callers[c := Await(call, s.sh.nextId, |s.sh.channels|)];
  }

  /** Where a caller goes with the outcome of its request. */
  function Onward(call: Call, good: bool): Pc {
    match call.purpose
    case Raw => Idle
    case Initialize => if good then InitializeMax else Idle
    case Ensure => if good then EnsureSet else EnsureReset
  }

  lemma Delivers(t: State, v: Json, r: RpcResult, id: int, chan: nat) returns (d: State)
    requires t.loop.Receiving? && ClassifyIncoming(v) == Response(Integer(id), r)
    requires Integer(id) in t.sh.pending && t.sh.pending[Integer(id)] == chan
    requires chan < |t.sh.channels| && t.sh.channels[chan].Open?
    ensures Next(t, Receive(Payload(v))) == Some(d)
    ensures d.callers == t.callers && d.loop == t.loop && d.lock == t.lock && d.outcomes == t.outcomes
    ensures d.sh == t.sh.(pending := t.sh.pending - {Integer(id)}, channels := t.sh.channels[chan := Filled(r)])
  {
    d := ReceiveNext(t, Payload(v));
  }

  lemma TakesAnswer(d: State, c: nat, call: Call, id: int, chan: nat, r: RpcResult, decodes: bool) returns (u: State)
    requires PcOf(d, c) == Await(call, id, chan) && chan < |d.sh.channels| && d.sh.channels[chan] == Filled(r)
    ensures Next(d, Advance(c, Choice(false, decodes))) == Some(u)
    ensures u.callers == d.callers[c := Onward(call, r.Value? && decodes)]
    ensures u.sh == d.sh && u.loop == d.loop && u.lock == d.lock
    ensures u.outcomes == d.outcomes[id := if r.Value? then Got(r.value) else RpcFailure(r.error)]
  {
    u := AdvanceNext(d, c, Choice(false, decodes)).value;
  }

  /** A waiting request is answered: its caller goes on with exactly that
      answer, and its entry is gone. */
  lemma Answered(s: State, t: State, c: nat, call: Call, v: Json, r: RpcResult, decodes: bool) returns (u: State)
    requires Waiting(s, t, c, call) && s.loop.Receiving? && Integer(s.sh.nextId) !in s.sh.pending
    requires ClassifyIncoming(v) == Response(Integer(s.sh.nextId), r)
    ensures Run(t, [Receive(Payload(v)), Advance(c, Choice(false, decodes))]) == Some(u)
    ensures u.callers == s.callers[c := Onward(call, r.Value? && decodes)] && u.loop.Receiving? && u.lock == s.lock
    ensures u.outcomes == s.outcomes[s.sh.nextId := if r.Value? then Got(r.value) else RpcFailure(r.error)]
    ensures u.sh == t.sh.(pending := s.sh.pending, channels := s.sh.channels + [Filled(r)])
  {
    var id, chan := s.sh.nextId, |s.sh.channels|;
    var d := Delivers(t, v, r, id, chan);
    assert d.sh.pending == s.sh.pending && d.sh.channels == s.sh.channels + [Filled(r)];
    u := TakesAnswer(d, c, call, id, chan, r, decodes);
    assert u.callers == s.callers[c := Onward(call, r.Value? && decodes)];
    TwoSteps(t, Receive(Payload(v)), Advance(c, Choice(false, decodes)));
  }

  /** A whole request: it goes out with its own name, parameters and id, and
      the response to that id is what its caller gets. */
  lemma RequestIsAnswered(s: State, c: nat, name: string, params: Json, v: Json, r: RpcResult)
      returns (steps: seq<Step>, t: State)
    requires PcOf(s, c).Idle? && s.loop.Receiving? && s.sh.outboundOpen && CanSend(s.sh)
    requires Integer(s.sh.nextId) !in s.sh.pending && Passes(s.sh.handshake, Call(name, params, Raw))
    requires ClassifyIncoming(v) == Response(Integer(s.sh.nextId), r)
    ensures Run(s, steps) == Some(t) && steps != [] && steps[0] == StartRequest(c, name, params)
    ensures t.callers == s.callers[c := Idle] && t.sh.pending == s.sh.pending && t.sh.handshake == s.sh.handshake
    ensures t.sh.sent == s.sh.sent + [RequestFrame(name, s.sh.nextId, params)]
    ensures t.outcomes == s.outcomes[s.sh.nextId := if r.Value? then Got(r.value) else RpcFailure(r.error)]
  {
    var call := Call(name, params, Raw);
    var a := At(s, c, Gate(call));
    var rest, u := GoesOutAndBack(a, c, call, v, r, true);
    t := u;
    steps := [StartRequest(c, name, params)] + rest;
    RunAfter(s, StartRequest(c, name, params), a, rest);
    assert t.callers == s.callers[c := Idle];
  }

  // ----- the handshake

  /** `initialize`: the client is initialized exactly if the answer is a
      result that decodes; else it is as before. */
  lemma InitializeIsAnswered(s: State, c: nat, params: Json, v: Json, r: RpcResult, decodes: bool)
      returns (steps: seq<Step>, t: State)
    requires PcOf(s, c).Idle? && s.loop.Receiving? && s.sh.outboundOpen && CanSend(s.sh)
    requires Integer(s.sh.nextId) !in s.sh.pending && s.sh.handshake < HANDSHAKE_INITIALIZED
    requires ClassifyIncoming(v) == Response(Integer(s.sh.nextId), r)
    ensures Run(s, steps) == Some(t) && steps != [] && steps[0] == StartInitialize(c, params)
    ensures t.callers == s.callers[c := Idle] && t.sh.pending == s.sh.pending
    ensures t.sh.sent == s.sh.sent + [RequestFrame("initialize", s.sh.nextId, params)]
    ensures t.sh.handshake == if r.Value? && decodes then HANDSHAKE_INITIALIZED else s.sh.handshake
  {
    var call := Call("initialize", params, Initialize);
    var a := At(s, c, Gate(call));
    var rest, u := GoesOutAndBack(a, c, call, v, r, decodes);
    if r.Value? && decodes {
      Chain(a, rest, u, [Advance(c, GO)]);
      t := MarksInitialized(u, c);
      rest := rest + [Advance(c, GO)];
    } else {
      t := u;
    }
    steps := [StartInitialize(c, params)] + rest;
    RunAfter(s, StartInitialize(c, params), a, rest);
    assert t.callers == s.callers[c := Idle];
  }

  /** A request from the gate to its answer. */
  lemma GoesOutAndBack(s: State, c: nat, call: Call, v: Json, r: RpcResult, decodes: bool)
      returns (steps: seq<Step>, t: State)
    requires PcOf(s, c) == Gate(call) && Passes(s.sh.handshake, call) && Integer(s.sh.nextId) !in s.sh.pending
    requires s.loop.Receiving? && s.sh.outboundOpen && CanSend(s.sh)
    requires ClassifyIncoming(v) == Response(Integer(s.sh.nextId), r)
    ensures Run(s, steps) == Some(t)
    ensures t.callers == s.callers[c := Onward(call, r.Value? && decodes)] && t.lock == s.lock
    ensures t.outcomes == s.outcomes[s.sh.nextId := if r.Value? then Got(r.value) else RpcFailure(r.error)]
    ensures t.sh == s.sh.(nextId := s.sh.nextId + 1, channels := s.sh.channels + [Filled(r)],
                          sent := s.sh.sent + [RequestFrame(call.name, s.sh.nextId, call.params)])
  {
    var out, w := GoesOut(s, c, call);
    var more := [Receive(Payload(v)), Advance(c, Choice(false, decodes))];
    t := Answered(s, w, c, call, v, r, decodes);
    steps := out + more;
    Chain(s, out, w, more);
  }

  lemma MarksInitialized(s: State, c: nat) returns (t: State)
    requires PcOf(s, c) == InitializeMax && s.sh.handshake < HANDSHAKE_INITIALIZED
    ensures Run(s, [Advance(c, GO)]) == Some(t)
    ensures t == At(s.(sh := s.sh.(handshake := HANDSHAKE_INITIALIZED)), c, Idle)
  {
    OneStep(s, Advance(c, GO));
    t := At(s.(sh := s.sh.(handshake := HANDSHAKE_INITIALIZED)), c, Idle);
  }

  /** The shared state, with caller `c` at `pc` under the lock, and what was
      there before otherwise. */
  ghost predicate Inside(s: State, t: State, c: nat, pc: Pc, sh: Shared) {
    && t.callers == s.callers[c := pc] && t.lock == Some(c) && t.loop == s.loop && t.sh == sh
    && t.log == s.log && t.outcomes == s.outcomes
  }

  lemma EnsureEntersLock(s: State, c: nat) returns (t: State)
    requires PcOf(s, c).Idle? && s.lock == None && s.sh.handshake < HANDSHAKE_READY
    ensures Run(s, [StartEnsure(c), Advance(c, GO)] + [Advance(c, GO), Advance(c, GO)]) == Some(t)
    ensures Inside(s, t, c, EnsureNeed, s.sh)
  {
    var a := PassesFast(s, c);
    Chain(s, [StartEnsure(c), Advance(c, GO)], a, [Advance(c, GO), Advance(c, GO)]);
    t := LocksAndLooks(a, c);
    assert t.callers == s.callers[c := EnsureNeed];
  }

  lemma PassesFast(s: State, c: nat) returns (t: State)
    requires PcOf(s, c).Idle? && s.sh.handshake < HANDSHAKE_READY
    ensures Run(s, [StartEnsure(c), Advance(c, GO)]) == Some(t) && t == At(At(s, c, EnsureFast), c, EnsureLock)
  {
    TwoSteps(s, StartEnsure(c), Advance(c, GO));
    t := At(At(s, c, EnsureFast), c, EnsureLock);
  }

  lemma LocksAndLooks(s: State, c: nat) returns (t: State)
    requires PcOf(s, c) == EnsureLock && s.lock == None && s.sh.handshake < HANDSHAKE_READY
    ensures Run(s, [Advance(c, GO), Advance(c, GO)]) == Some(t)
    ensures t == At(At(s.(lock := Some(c)), c, EnsureCheck), c, EnsureNeed)
  {
    TwoSteps(s, Advance(c, GO), Advance(c, GO));
    t := At(At(s.(lock := Some(c)), c, EnsureCheck), c, EnsureNeed);
  }

  lemma EnsureStartsInitialize(s: State, c: nat) returns (steps: seq<Step>, t: State)
    requires PcOf(s, c).Idle? && s.lock == None && s.sh.handshake < HANDSHAKE_INITIALIZED
    ensures Run(s, steps) == Some(t) && steps != [] && steps[0] == StartEnsure(c)
    ensures Inside(s, t, c, Gate(Call("initialize", Obj(map[]), Ensure)), s.sh.(handshake := HANDSHAKE_INITIALIZING))
  {
    var go, four := Advance(c, GO), [StartEnsure(c), Advance(c, GO)] + [Advance(c, GO), Advance(c, GO)];
    var a := EnsureEntersLock(s, c);
    steps := four + [go, go];
    Chain(s, four, a, [go, go]);
    t := EnsureMarks(a, c);
    assert t.callers == s.callers[c := Gate(Call("initialize", Obj(map[]), Ensure))];
  }

  lemma EnsureMarks(s: State, c: nat) returns (t: State)
    requires PcOf(s, c) == EnsureNeed && s.lock == Some(c) && s.sh.handshake < HANDSHAKE_INITIALIZED
    ensures Run(s, [Advance(c, GO), Advance(c, GO)]) == Some(t)
    ensures Inside(s, t, c, Gate(Call("initialize", Obj(map[]), Ensure)), s.sh.(handshake := HANDSHAKE_INITIALIZING))
  {
    var go, b := Advance(c, GO), At(s, c, EnsureMark);
    assert Next(s, go) == Some(b);
    TwoSteps(s, go, go);
    t := At(b.(sh := Store(b.sh, HANDSHAKE_INITIALIZING)), c, Gate(Call(METHOD_INITIALIZE, Obj(map[]), Ensure)));
    assert t.callers == s.callers[c := Gate(Call("initialize", Obj(map[]), Ensure))];
  }

  /** The end of a successful `ensure_ready`, from the notification on. */
  lemma EnsureNotifies(s: State, c: nat) returns (t: State)
    requires PcOf(s, c) == EnsureNotify && s.lock == Some(c) && s.sh.outboundOpen && CanSend(s.sh)
    ensures Run(s, [Advance(c, GO), Advance(c, GO)]) == Some(t)
    ensures t.callers == s.callers[c := Idle] && t.lock == None
    ensures t.sh == s.sh.(sent := s.sh.sent + [NotificationFrame("initialized", Obj(map[]))],
                          handshake := HANDSHAKE_READY)
    ensures t.log != [] && t.log[|t.log| - 1] == EnsureOk(HANDSHAKE_READY)
  {
    var d := EnsureSends(s, c);
    TwoSteps(s, Advance(c, GO), Advance(c, GO));
    t := EnsureEnds(d, c);
    assert t.callers == s.callers[c := Idle];
  }

  lemma EnsureSends(s: State, c: nat) returns (t: State)
    requires PcOf(s, c) == EnsureNotify && s.sh.outboundOpen && CanSend(s.sh)
    ensures Next(s, Advance(c, GO)) == Some(t) && t.callers == s.callers[c := EnsureReady] && t.lock == s.lock
    ensures t.sh == s.sh.(sent := s.sh.sent + [NotificationFrame("initialized", Obj(map[]))])
  {
    t := Next(s, Advance(c, GO)).value;
  }

  lemma EnsureEnds(s: State, c: nat) returns (t: State)
    requires PcOf(s, c) == EnsureReady
    ensures Next(s, Advance(c, GO)) == Some(t) && t.callers == s.callers[c := Idle] && t.lock == None
    ensures t.sh == s.sh.(handshake := HANDSHAKE_READY) && t.log == s.log + [EnsureOk(HANDSHAKE_READY)]
  {
    t := Next(s, Advance(c, GO)).value;
  }

  /** `ensure_ready` on an initialized connection sends only the notification,
      and succeeds. */
  lemma EnsureFinishesHandshake(s: State, c: nat) returns (steps: seq<Step>, t: State)
    requires PcOf(s, c).Idle? && s.lock == None && s.sh.handshake == HANDSHAKE_INITIALIZED
    requires s.sh.outboundOpen && CanSend(s.sh)
    ensures Run(s, steps) == Some(t) && steps != [] && steps[0] == StartEnsure(c)
    ensures t.callers == s.callers[c := Idle] && t.lock == None
    ensures t.sh == s.sh.(sent := s.sh.sent + [NotificationFrame("initialized", Obj(map[]))],
                          handshake := HANDSHAKE_READY)
    ensures t.log != [] && t.log[|t.log| - 1] == EnsureOk(HANDSHAKE_READY)
  {
    var go, four := Advance(c, GO), [StartEnsure(c), Advance(c, GO)] + [Advance(c, GO), Advance(c, GO)];
    var a := EnsureEntersLock(s, c);
    var b := EnsureGoesOn(a, c);
    Chain(s, four, a, [go] + [go, go]);
    Chain(a, [go], b, [go, go]);
    t := EnsureNotifies(b, c);
    steps := four + ([go] + [go, go]);
    assert t.callers == s.callers[c := Idle];
  }

  lemma EnsureGoesOn(s: State, c: nat) returns (t: State)
    requires PcOf(s, c) == EnsureNeed && s.sh.handshake == HANDSHAKE_INITIALIZED
    ensures Run(s, [Advance(c, GO)]) == Some(t) && t == At(s, c, EnsureNotify)
  {
    OneStep(s, Advance(c, GO));
    t := At(s, c, EnsureNotify);
  }

  /** `ensure_ready` on a new connection up to the answer to its `initialize`. */
  lemma EnsureIsAnswered(s: State, c: nat, v: Json, r: RpcResult, decodes: bool) returns (steps: seq<Step>, t: State)
    requires PcOf(s, c).Idle? && s.lock == None && s.sh.handshake < HANDSHAKE_INITIALIZED && s.loop.Receiving?
    requires s.sh.outboundOpen && CanSend(s.sh) && Integer(s.sh.nextId) !in s.sh.pending
    requires ClassifyIncoming(v) == Response(Integer(s.sh.nextId), r)
    ensures Run(s, steps) == Some(t) && steps != [] && steps[0] == StartEnsure(c)
    ensures t.callers == s.callers[c := if r.Value? && decodes then EnsureSet else EnsureReset] && t.lock == Some(c)
    ensures t.sh == s.sh.(nextId := s.sh.nextId + 1, channels := s.sh.channels + [Filled(r)],
                          sent := s.sh.sent + [RequestFrame("initialize", s.sh.nextId, Obj(map[]))],
                          handshake := HANDSHAKE_INITIALIZING)
  {
    var first, a := EnsureStartsInitialize(s, c);
    var rest, u := GoesOutAndBack(a, c, Call("initialize", Obj(map[]), Ensure), v, r, decodes);
    t := u;
    steps := first + rest;
    Chain(s, first, a, rest);
    assert t.callers == s.callers[c := if r.Value? && decodes then EnsureSet else EnsureReset];
  }

  /** `ensure_ready` on a new connection, with an answer that decodes: both
      messages have gone out in order, the connection is ready, and the call
      succeeds. */
  lemma EnsurePerformsHandshake(s: State, c: nat, v: Json, result: Json) returns (steps: seq<Step>, t: State)
    requires PcOf(s, c).Idle? && s.lock == None && s.sh.handshake < HANDSHAKE_INITIALIZED && s.loop.Receiving?
    requires s.sh.outboundOpen && |s.sh.sent| + 1 < s.sh.written + OUTBOUND_CAPACITY
    requires Integer(s.sh.nextId) !in s.sh.pending
    requires ClassifyIncoming(v) == Response(Integer(s.sh.nextId), Value(result))
    ensures Run(s, steps) == Some(t) && steps != [] && steps[0] == StartEnsure(c)
    ensures t.callers == s.callers[c := Idle] && t.lock == None && t.sh.pending == s.sh.pending
    ensures t.sh.sent == s.sh.sent + [RequestFrame("initialize", s.sh.nextId, Obj(map[]))]
                         + [NotificationFrame("initialized", Obj(map[]))]
    ensures t.sh.handshake == HANDSHAKE_READY && t.log != [] && t.log[|t.log| - 1] == EnsureOk(HANDSHAKE_READY)
  {
    var more := [Advance(c, GO)] + [Advance(c, GO), Advance(c, GO)];
    var first, a := EnsureIsAnswered(s, c, v, Value(result), true);
    assert PcOf(a, c) == EnsureSet && CanSend(a.sh);
    t := EnsureSets(a, c);
    steps := first + more;
    Chain(s, first, a, more);
    assert t.callers == s.callers[c := Idle];
  }

  /** ... with an error, or a result that does not decode: the call fails, and
      the connection is new. */
  lemma EnsureFailsHandshake(s: State, c: nat, v: Json, r: RpcResult, decodes: bool)
      returns (steps: seq<Step>, t: State)
    requires PcOf(s, c).Idle? && s.lock == None && s.sh.handshake < HANDSHAKE_INITIALIZED && s.loop.Receiving?
    requires s.sh.outboundOpen && CanSend(s.sh) && Integer(s.sh.nextId) !in s.sh.pending
    requires ClassifyIncoming(v) == Response(Integer(s.sh.nextId), r) && !(r.Value? && decodes)
    ensures Run(s, steps) == Some(t) && steps != [] && steps[0] == StartEnsure(c)
    ensures t.callers == s.callers[c := Idle] && t.lock == None && t.sh.pending == s.sh.pending
    ensures t.sh.sent == s.sh.sent + [RequestFrame("initialize", s.sh.nextId, Obj(map[]))]
    ensures t.sh.handshake == HANDSHAKE_NEW && t.log != [] && t.log[|t.log| - 1] == EnsureFailed
  {
    var first, a := EnsureIsAnswered(s, c, v, r, decodes);
    t := EnsureResets(a, c);
    steps := first + [Advance(c, GO)];
    Chain(s, first, a, [Advance(c, GO)]);
    assert t.callers == s.callers[c := Idle];
  }

  lemma EnsureSets(s: State, c: nat) returns (t: State)
    requires PcOf(s, c) == EnsureSet && s.lock == Some(c) && s.sh.outboundOpen && CanSend(s.sh)
    ensures Run(s, [Advance(c, GO)] + [Advance(c, GO), Advance(c, GO)]) == Some(t)
    ensures t.callers == s.callers[c := Idle] && t.lock == None
    ensures t.sh == s.sh.(sent := s.sh.sent + [NotificationFrame("initialized", Obj(map[]))],
                          handshake := HANDSHAKE_READY)
    ensures t.log != [] && t.log[|t.log| - 1] == EnsureOk(HANDSHAKE_READY)
  {
    var go, b := Advance(c, GO), At(s.(sh := Store(s.sh, HANDSHAKE_INITIALIZED)), c, EnsureNotify);
    OneStep(s, go);
    Chain(s, [go], b, [go, go]);
    t := EnsureNotifies(b, c);
    assert t.callers == s.callers[c := Idle];
  }

  lemma EnsureResets(s: State, c: nat) returns (t: State)
    requires PcOf(s, c) == EnsureReset && s.lock == Some(c)
    ensures Run(s, [Advance(c, GO)]) == Some(t)
    ensures t.callers == s.callers[c := Idle] && t.lock == None && t.sh == s.sh.(handshake := HANDSHAKE_NEW)
    ensures t.log == s.log + [EnsureFailed]
  {
    OneStep(s, Advance(c, GO));
    t := Next(s, Advance(c, GO)).value;
  }

  /** A request that cannot be sent any more fails at once, and its entry is
      gone. */
  lemma UnsendableRequestFails(s: State, c: nat, call: Call) returns (t: State)
    requires PcOf(s, c) == Gate(call) && Passes(s.sh.handshake, call) && Integer(s.sh.nextId) !in s.sh.pending
    requires !s.sh.outboundOpen
    ensures Run(s, ([Advance(c, GO), Advance(c, GO)] + [Advance(c, GO)]) + [Advance(c, GO), Advance(c, GO)]) == Some(t)
    ensures t.callers == s.callers[c := Onward(call, false)]
    ensures t.outcomes == s.outcomes[s.sh.nextId := SendFailed]
    ensures t.sh.pending == s.sh.pending && t.sh.sent == s.sh.sent && t.sh.handshake == s.sh.handshake
  {
    var three := [Advance(c, GO), Advance(c, GO)] + [Advance(c, GO)];
    var u := Registers(s, c, call);
    Chain(s, three, u, [Advance(c, GO), Advance(c, GO)]);
    t := Unsends(u, c, call, s.sh.nextId, |s.sh.channels|);
    assert t.sh.pending == s.sh.pending;
    assert t.callers == s.callers[c := Onward(call, false)];
  }

  lemma Unsends(s: State, c: nat, call: Call, id: int, chan: nat) returns (t: State)
    requires PcOf(s, c) == Send(call, id, chan) && !s.sh.outboundOpen && Integer(id) in s.sh.pending
    ensures Run(s, [Advance(c, GO), Advance(c, GO)]) == Some(t)
    ensures t.callers == s.callers[c := Onward(call, false)] && t.outcomes == s.outcomes[id := SendFailed]
    ensures t.sh.pending == s.sh.pending - {Integer(id)} && t.sh.sent == s.sh.sent && t.sh.handshake == s.sh.handshake
  {
    var a := At(s, c, Unsend(call, id, chan));
    assert Next(s, Advance(c, GO)) == Some(a);
    TwoSteps(s, Advance(c, GO), Advance(c, GO));
    t := Next(a, Advance(c, GO)).value;
    assert t.callers == s.callers[c := Onward(call, false)];
  }

  /** Registering and clearing a handler is about that method alone. */
  lemma HandlersAreSet(s: State, name: string, other: string)
    ensures
      var added, cleared := Next(s, SetHandler(name)), Next(s, ClearHandler(name));
      && added.Some? && cleared.Some?
      && name in added.value.sh.handlers && name !in cleared.value.sh.handlers
      && (other != name ==>
            && (other in added.value.sh.handlers <==> other in s.sh.handlers)
            && (other in cleared.value.sh.handlers <==> other in s.sh.handlers))
  {
  }

  // ----- the outbound queue

  /** The writer takes the frames one by one, in the order they were sent, as
      long as the queue is open and has one it has not taken. */
  lemma WriterTakesNext(s: State)
    ensures Next(s, WriterTakes).Some? <==> s.sh.outboundOpen && s.sh.written < |s.sh.sent|
    ensures Next(s, WriterTakes).Some? ==> Next(s, WriterTakes) == Some(s.(sh := s.sh.(written := s.sh.written + 1)))
  {
  }

  /** When the inbound stream ends the loop stops without a failure: nobody is
      told anything. When the transport closes the queue nothing else happens. */
  lemma QuietEnds(s: State)
    ensures s.loop.Receiving? ==> Next(s, EndOfStream) == Some(s.(loop := Stopped(false)))
    ensures Next(s, CloseOutbound) == Some(s.(sh := s.sh.(outboundOpen := false)))
  {
  }

  /** The writer is never ahead of the queue, and the queue never holds more
      than 256 frames. */
  predicate Bounded(sh: Shared) {
    sh.written <= |sh.sent| <= sh.written + 256
  }

  lemma StepKeepsBound(s: State, step: Step)
    requires Bounded(s.sh) && Next(s, step).Some?
    ensures Bounded(Next(s, step).value.sh)
  {
    if step.Advance? {
      AdvanceKeepsBound(s, step.c, step.choice);
    } else if OfLoop(step) {
      LoopKeepsBound(s, step);
    }
  }

  lemma AdvanceKeepsBound(s: State, c: nat, choice: Choice)
    requires Bounded(s.sh) && AdvanceNext(s, c, choice).Some?
    ensures Bounded(AdvanceNext(s, c, choice).value.sh)
  {
    if InRequest(PcOf(s, c)) {
      RequestKeepsBound(s, c, choice);
    } else if InNote(PcOf(s, c)) {
      NoteKeepsBound(s, c);
    } else {
      EnsureKeepsBound(s, c);
    }
  }

  lemma NoteKeepsBound(s: State, c: nat)
    requires Bounded(s.sh) && InNote(PcOf(s, c)) && NoteNext(s, c, PcOf(s, c)).Some?
    ensures Bounded(NoteNext(s, c, PcOf(s, c)).value.sh)
  {
  }

  lemma EnsureKeepsBound(s: State, c: nat)
    requires Bounded(s.sh) && InEnsure(PcOf(s, c)) && EnsureNext(s, c, PcOf(s, c)).Some?
    ensures Bounded(EnsureNext(s, c, PcOf(s, c)).value.sh)
  {
  }

  lemma RequestKeepsBound(s: State, c: nat, choice: Choice)
    requires Bounded(s.sh) && InRequest(PcOf(s, c)) && RequestNext(s, c, PcOf(s, c), choice).Some?
    ensures Bounded(RequestNext(s, c, PcOf(s, c), choice).value.sh)
  {
  }

  lemma LoopKeepsBound(s: State, step: Step)
    requires Bounded(s.sh) && OfLoop(step) && LoopNext(s, step).Some?
    ensures Bounded(LoopNext(s, step).value.sh)
  {
    if step.Receive? && step.item.Payload? {
      match ClassifyIncoming(step.item.value)
      case Response(id, r) =>
      case Notification(name, params) =>
      case ServerRequest(id, name, params) =>
      case Invalid =>
    }
  }

  lemma {:induction false} QueueIsBounded(steps: seq<Step>)
    requires Run(INIT, steps).Some?
    ensures Bounded(Run(INIT, steps).value.sh)
  {
    if steps != [] {
      var front := steps[..|steps| - 1];
      QueueIsBounded(front);
      StepKeepsBound(Run(INIT, front).value, steps[|steps| - 1]);
    }
  }
}
