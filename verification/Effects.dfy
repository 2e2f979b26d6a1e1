/** What the inbound loop does with what it receives. */
module Effects {
  import opened Options
  import opened Rpc
  import opened Inner
  import opened Engine
  import opened Correlation

  predicate Readable(item: Item) {
    item.Payload? && !ClassifyIncoming(item.value).Invalid?
  }

  /** The position of the first item that stops the loop. */
  function FirstBad(items: seq<Item>): (n: nat)
    ensures n <= |items|
    ensures forall i :: 0 <= i < n ==> Readable(items[i])
    ensures n < |items| ==> !Readable(items[n])
  {
    if items == [] || !Readable(items[0]) then 0 else 1 + FirstBad(items[1..])
  }

  function Meanings(items: seq<Item>): seq<Incoming> {
    if items == [] then []
    else
      var last := items[|items| - 1];
      Meanings(items[..|items| - 1]) + [if last.Payload? then ClassifyIncoming(last.value) else Invalid]
  }

  /** The one effect a processed frame may have. */
  predicate Fits(m: Incoming, e: Effect) {
    match m
    case Response(id, r) => e == Resolved(id, r) || e == Dropped(id)
    case Notification(name, params) => e == Published(NotificationEvent(name, params))
    case ServerRequest(id, name, params) =>
      || e == Published(RequestEvent(id, name, params))
      || (e.Replied? && IsReplyTo(e.frame, id))
      || (e.ReplyLost? && IsReplyTo(e.frame, id))
    case Invalid => false
  }

  /** A handler's result, or the fixed error code if the handler failed. */
  predicate IsReplyTo(f: Frame, id: RequestId) {
    || (f.ResultFrame? && f.replyTo == id)
    || (f.ErrorFrame? && f.replyTo == id && f.error.code == RPC_ERROR_CODE_HANDLER_FAILED)
  }

  /** What the broadcast stream shows of the effects. */
  function EventsOf(effects: seq<Effect>): seq<ServerEvent> {
    if effects == [] then [] else EventsOf(effects[..|effects| - 1]) + Shown(effects[|effects| - 1])
  }

  function Shown(e: Effect): seq<ServerEvent> {
    match e
    case Published(event) => [event]
    case ReplyLost(_) => [TransportClosed]
    case _ => []
  }

  predicate Busy(loop: LoopPc) {
    loop.LookUpHandler? || loop.Handling? || loop.Replying?
  }

  predicate Broke(loop: LoopPc) {
    loop.Failing? || loop == Stopped(true)
  }

  /** While the loop is busy, its last frame is the request it works on. */
  predicate Working(loop: LoopPc, m: Incoming) {
    match loop
    case LookUpHandler(id, name, params) => m == ServerRequest(id, name, params)
    case Handling(id, name, params) => m == ServerRequest(id, name, params)
    case Replying(reply) => m.ServerRequest? && IsReplyTo(reply, m.id)
    case _ => true
  }

  ghost predicate AllReadable(items: seq<Item>) {
    forall i :: 0 <= i < |items| ==> Readable(items[i])
  }

  ghost predicate Intake(received: seq<Item>, handled: seq<Incoming>, broke: bool) {
    if broke then
      && received != [] && !Readable(received[|received| - 1])
      && AllReadable(received[..|received| - 1]) && handled == Meanings(received[..|received| - 1])
    else AllReadable(received) && handled == Meanings(received)
  }

  predicate AllFit(handled: seq<Incoming>, effects: seq<Effect>) {
    |effects| <= |handled| && forall k :: 0 <= k < |effects| ==> Fits(handled[k], effects[k])
  }

  ghost predicate Output(handled: seq<Incoming>, effects: seq<Effect>, loop: LoopPc, events: seq<ServerEvent>) {
    && |effects| + (if Busy(loop) then 1 else 0) == |handled|
    && AllFit(handled, effects)
    && (Busy(loop) ==> Working(loop, handled[|effects|]))
    && events == EventsOf(effects) + (if loop == Stopped(true) then [TransportClosed] else [])
  }

  ghost predicate EffectInv(s: State) {
    && Intake(s.received, s.handled, Broke(s.loop))
    && Output(s.handled, s.effects, s.loop, s.sh.events)
  }

  lemma IntakeGrows(received: seq<Item>, handled: seq<Incoming>, item: Item)
    requires Intake(received, handled, false)
    ensures Readable(item) ==> Intake(received + [item], handled + [ClassifyIncoming(item.value)], false)
    ensures !Readable(item) ==> Intake(received + [item], handled, true)
  {
    assert (received + [item])[..|received|] == received;
  }

  lemma OneMoreFits(handled: seq<Incoming>, effects: seq<Effect>, e: Effect)
    requires AllFit(handled, effects) && |effects| < |handled| && Fits(handled[|effects|], e)
    ensures AllFit(handled, effects + [e])
  {
  }

  lemma StillFits(handled: seq<Incoming>, m: Incoming, effects: seq<Effect>)
    requires AllFit(handled, effects)
    ensures AllFit(handled + [m], effects)
  {
  }

  lemma Eventful(effects: seq<Effect>, e: Effect)
    ensures EventsOf(effects + [e]) == EventsOf(effects) + Shown(e)
  {
    assert (effects + [e])[..|effects|] == effects;
  }

  lemma BadKeepsEffects(s: State, item: Item, message: string)
    requires EffectInv(s) && s.loop.Receiving? && !Readable(item)
    ensures EffectInv(BeginFailing(s.(received := s.received + [item]), message))
  {
    IntakeGrows(s.received, s.handled, item);
  }

  /** The state right after a readable item is taken. */
  function Taken(s: State, item: Item, m: Incoming): State {
    Log(s.(received := s.received + [item], handled := s.handled + [m]), Handled(m))
  }

  lemma DoneKeepsEffects(s: State, item: Item, m: Incoming, e: Effect, sh: Shared)
    requires EffectInv(s) && s.loop.Receiving? && Readable(item) && m == ClassifyIncoming(item.value) && Fits(m, e)
    requires sh.events == EventsOf(s.effects + [e])
    ensures EffectInv(Done(Taken(s, item, m).(sh := sh), e))
  {
    IntakeGrows(s.received, s.handled, item);
    StillFits(s.handled, m, s.effects);
    OneMoreFits(s.handled + [m], s.effects, e);
  }

  lemma ReadableKeepsEffects(s: State, item: Item)
    requires EffectInv(s) && s.loop.Receiving? && Readable(item)
    ensures EffectInv(ReceiveNext(s, item))
  {
    var m := ClassifyIncoming(item.value);
    var u := Taken(s, item, m);
    match m
    case Response(id, r) =>
      var e := if id in u.sh.pending then Resolved(id, r) else Dropped(id);
      Eventful(s.effects, e);
      DoneKeepsEffects(s, item, m, e, Resolve(u.sh, id, r));
    case Notification(name, params) =>
      var e := NotificationEvent(name, params);
      Eventful(s.effects, Published(e));
      DoneKeepsEffects(s, item, m, Published(e), Publish(u.sh, e));
    case ServerRequest(_, _, _) =>
      IntakeGrows(s.received, s.handled, item);
      StillFits(s.handled, m, s.effects);
  }

  lemma ReceiveKeepsEffects(s: State, item: Item)
    requires EffectInv(s) && s.loop.Receiving?
    ensures EffectInv(ReceiveNext(s, item))
  {
    if Readable(item) {
      ReadableKeepsEffects(s, item);
    } else {
      BadKeepsEffects(s, item, if item.Broken? then item.message else "processing inbound frame failed");
    }
  }

  lemma ServedKeepsEffects(s: State, e: Effect, t: State)
    requires EffectInv(s) && Busy(s.loop) && Fits(s.handled[|s.effects|], e)
    requires t.loop.Receiving? && t.received == s.received && t.handled == s.handled && t.effects == s.effects + [e]
    requires t.sh.events == EventsOf(t.effects)
    ensures EffectInv(t)
  {
    OneMoreFits(s.handled, s.effects, e);
  }

  lemma FoundKeepsEffects(s: State)
    requires EffectInv(s) && s.loop.LookUpHandler?
    ensures EffectInv(s.(loop := Handling(s.loop.id, s.loop.name, s.loop.params)))
  {
  }

  lemma NotFoundKeepsEffects(s: State, e: ServerEvent)
    requires EffectInv(s) && s.loop.LookUpHandler? && e == RequestEvent(s.loop.id, s.loop.name, s.loop.params)
    ensures EffectInv(Done(s.(sh := Publish(s.sh, e)), Published(e)))
  {
    Eventful(s.effects, Published(e));
    ServedKeepsEffects(s, Published(e), Done(s.(sh := Publish(s.sh, e)), Published(e)));
  }

  lemma FindKeepsEffects(s: State, decodes: bool)
    requires EffectInv(s) && s.loop.LookUpHandler?
    ensures EffectInv(LoopNext(s, FindHandler(decodes)).value)
  {
    if decodes && s.loop.name in SERVER_REQUESTS && s.loop.name in s.sh.handlers {
      FoundKeepsEffects(s);
    } else {
      NotFoundKeepsEffects(s, RequestEvent(s.loop.id, s.loop.name, s.loop.params));
    }
  }

  lemma ReplyKeepsEffects(s: State)
    requires EffectInv(s) && s.loop.Replying? && LoopNext(s, SendReply).Some?
    ensures EffectInv(LoopNext(s, SendReply).value)
  {
    var e := if s.sh.outboundOpen then Replied(s.loop.reply) else ReplyLost(s.loop.reply);
    Eventful(s.effects, e);
    ServedKeepsEffects(s, e, LoopNext(s, SendReply).value);
  }

  lemma HandledKeepsEffects(s: State, answer: Frame)
    requires EffectInv(s) && LoopNext(s, HandlerDone(answer)).Some?
    ensures EffectInv(LoopNext(s, HandlerDone(answer)).value)
  {
    assert LoopNext(s, HandlerDone(answer)).value == s.(loop := Replying(answer));
  }

  lemma EndingKeepsEffects(s: State, step: Step)
    requires EffectInv(s) && (step.EndOfStream? || step.FailOne? || step.Announce?) && LoopNext(s, step).Some?
    ensures EffectInv(LoopNext(s, step).value)
  {
  }

  lemma OtherKeepsEffects(s: State, step: Step)
    requires EffectInv(s) && (step.HandlerDone? || step.EndOfStream? || step.FailOne? || step.Announce?)
    requires LoopNext(s, step).Some?
    ensures EffectInv(LoopNext(s, step).value)
  {
    if step.HandlerDone? {
      HandledKeepsEffects(s, step.answer);
    } else {
      EndingKeepsEffects(s, step);
    }
  }

  lemma AdvanceKeepsEffects(s: State, c: nat, choice: Choice)
    requires AdvanceNext(s, c, choice).Some?
    ensures SameIntake(s, AdvanceNext(s, c, choice).value)
  {
    var pc := PcOf(s, c);
    if InRequest(pc) {
      RequestIntake(s, c, choice);
    } else if InNote(pc) {
      NoteIntake(s, c);
    } else {
      EnsureIntake(s, c);
    }
  }

  predicate SameIntake(s: State, t: State) {
    t.loop == s.loop && t.received == s.received && t.handled == s.handled && t.effects == s.effects
        && t.sh.events == s.sh.events
  }

  lemma IntakeWhileRequestBegins(s: State, c: nat, choice: Choice)
    requires (PcOf(s, c).Gate? || PcOf(s, c).AllocId? || PcOf(s, c).Insert?)
        && RequestNext(s, c, PcOf(s, c), choice).Some?
    ensures SameIntake(s, RequestNext(s, c, PcOf(s, c), choice).value)
  {
  }

  lemma IntakeWhileRequestSends(s: State, c: nat, choice: Choice)
    requires PcOf(s, c).Send? && RequestNext(s, c, PcOf(s, c), choice).Some?
    ensures SameIntake(s, RequestNext(s, c, PcOf(s, c), choice).value)
  {
  }

  lemma IntakeWhileRequestEnds(s: State, c: nat, choice: Choice)
    requires (PcOf(s, c).Unsend? || PcOf(s, c).Await? || PcOf(s, c).Expire?)
        && RequestNext(s, c, PcOf(s, c), choice).Some?
    ensures SameIntake(s, RequestNext(s, c, PcOf(s, c), choice).value)
  {
  }

  lemma RequestIntake(s: State, c: nat, choice: Choice)
    requires InRequest(PcOf(s, c)) && RequestNext(s, c, PcOf(s, c), choice).Some?
    ensures SameIntake(s, RequestNext(s, c, PcOf(s, c), choice).value)
  {
    var pc := PcOf(s, c);
    if pc.Gate? || pc.AllocId? || pc.Insert? {
      IntakeWhileRequestBegins(s, c, choice);
    } else if pc.Send? {
      IntakeWhileRequestSends(s, c, choice);
    } else {
      IntakeWhileRequestEnds(s, c, choice);
    }
  }

  lemma NoteIntake(s: State, c: nat)
    requires InNote(PcOf(s, c)) && NoteNext(s, c, PcOf(s, c)).Some?
    ensures SameIntake(s, NoteNext(s, c, PcOf(s, c)).value)
  {
  }

  lemma EnsureIntake(s: State, c: nat)
    requires InEnsure(PcOf(s, c)) && EnsureNext(s, c, PcOf(s, c)).Some?
    ensures SameIntake(s, EnsureNext(s, c, PcOf(s, c)).value)
  {
  }

  // ----- what an effect is, in the shared state

  /** The shared state before and after an effect: a response takes its entry
      out of the map and fills that entry's channel, a reply goes to the end of
      the outbound queue, an event to the end of the broadcast; nothing else
      moves. */
  predicate Did(s: Shared, t: Shared, e: Effect) {
    match e
    case Resolved(id, r) =>
      && id in s.pending && s.pending[id] < |s.channels| && s.channels[s.pending[id]].Open?
      && t == s.(pending := s.pending - {id}, channels := s.channels[s.pending[id] := Filled(r)])
    case Dropped(id) => id !in s.pending && t == s
    case Published(event) => t == s.(events := s.events + [event])
    case Replied(frame) => s.outboundOpen && t == s.(sent := s.sent + [frame])
    case ReplyLost(_) => !s.outboundOpen && t == s.(events := s.events + [TransportClosed])
  }

  /** A step of the loop that has no effect: while it works on a request it
      touches nothing, and a failing loop only takes over what is pending,
      uses its senders and announces the end. */
  predicate DidNothing(s: State, t: State) {
    if s.loop.Failing? then t.sh.sent == s.sh.sent && t.sh.pending == s.sh.pending
    else if t.loop.Failing? then t.sh == s.sh.(pending := map[])
    else t.sh == s.sh
  }

  /** The effects a step notes down are the ones it has. */
  predicate EffectIsReal(s: State, step: Step, t: State) {
    if !OfLoop(step) then t.effects == s.effects
    else if t.effects == s.effects then DidNothing(s, t)
    else
      && |t.effects| == |s.effects| + 1 && t.effects[..|s.effects|] == s.effects
      && s.loop.Failing? == t.loop.Failing? == false
      && Did(s.sh, t.sh, t.effects[|s.effects|])
  }

  lemma DoneIsReal(s: State, step: Step, u: State, e: Effect)
    requires OfLoop(step) && u.effects == s.effects && !s.loop.Failing? && Did(s.sh, u.sh, e)
    ensures EffectIsReal(s, step, Done(u, e))
  {
  }

  lemma ReceiveIsReal(s: State, item: Item)
    requires Good(s) && s.loop.Receiving?
    ensures EffectIsReal(s, Receive(item), ReceiveNext(s, item))
  {
    if Readable(item) {
      var m := ClassifyIncoming(item.value);
      var u := Taken(s, item, m);
      match m {
        case Response(id, r) =>
          if id in s.sh.pending { assert PendingHeld(s, id); }
          var e := if id in u.sh.pending then Resolved(id, r) else Dropped(id);
          DoneIsReal(s, Receive(item), u.(sh := Resolve(u.sh, id, r)), e);
        case Notification(name, params) =>
          var event := NotificationEvent(name, params);
          DoneIsReal(s, Receive(item), u.(sh := Publish(u.sh, event)), Published(event));
        case ServerRequest(_, _, _) =>
      }
    }
  }

  lemma LoopIsReal(s: State, step: Step)
    requires Good(s) && OfLoop(step) && LoopNext(s, step).Some?
    ensures EffectIsReal(s, step, LoopNext(s, step).value)
  {
    if step.Receive? {
      ReceiveIsReal(s, step.item);
    }
  }

  lemma StepKeepsEffects(s: State, step: Step)
    requires EffectInv(s) && Good(s) && Next(s, step).Some?
    ensures EffectInv(Next(s, step).value) && EffectIsReal(s, step, Next(s, step).value)
  {
    if step.Advance? {
      AdvanceKeepsEffects(s, step.c, step.choice);
    } else if OfLoop(step) {
      LoopIsReal(s, step);
      LoopKeepsEffects(s, step);
    }
  }

  lemma LoopKeepsEffects(s: State, step: Step)
    requires EffectInv(s) && OfLoop(step) && LoopNext(s, step).Some?
    ensures EffectInv(LoopNext(s, step).value)
  {
    if step.Receive? {
      ReceiveKeepsEffects(s, step.item);
    } else if step.FindHandler? {
      FindKeepsEffects(s, step.decodes);
    } else if step.SendReply? {
      ReplyKeepsEffects(s);
    } else {
      OtherKeepsEffects(s, step);
    }
  }

  lemma {:induction false} RunKeepsEffects(steps: seq<Step>)
    requires Run(INIT, steps).Some?
    ensures EffectInv(Run(INIT, steps).value)
  {
    if steps != [] {
      var front := steps[..|steps| - 1];
      RunKeepsEffects(front);
      RunKeepsGood(INIT, front);
      StepKeepsEffects(Run(INIT, front).value, steps[|steps| - 1]);
    }
  }

  // ----- what the loop did over a run

  function Grown<T(==)>(before: seq<T>, now: seq<T>): seq<T> {
    if before <= now then now[|before|..] else now
  }

  /** What a step of the loop puts on the outbound queue. */
  function StepPuts(s: State, step: Step, t: State): seq<Frame> {
    if OfLoop(step) then Grown(s.sh.sent, t.sh.sent) else []
  }

  /** The ids a step took out of the map, each with what its channel holds
      afterwards. */
  function Removed(s: Shared, t: Shared): set<(RequestId, Channel)> {
    set id | id in s.pending && id !in t.pending ::
      (id, if s.pending[id] < |t.channels| then t.channels[s.pending[id]] else Closed)
  }

  /** What a step of the loop delivers, unless the loop fails. */
  function StepDelivers(s: State, step: Step, t: State): seq<set<(RequestId, Channel)>> {
    if OfLoop(step) && !t.loop.Failing? && Removed(s.sh, t.sh) != {} then [Removed(s.sh, t.sh)] else []
  }

  function PutByLoop(steps: seq<Step>): seq<Frame>
    requires Run(INIT, steps).Some?
  {
    if steps == [] then []
    else
      var front := steps[..|steps| - 1];
      PutByLoop(front) + StepPuts(Run(INIT, front).value, steps[|steps| - 1], Run(INIT, steps).value)
  }

  function DeliveredByLoop(steps: seq<Step>): seq<set<(RequestId, Channel)>>
    requires Run(INIT, steps).Some?
  {
    if steps == [] then []
    else
      var front := steps[..|steps| - 1];
      DeliveredByLoop(front) + StepDelivers(Run(INIT, front).value, steps[|steps| - 1], Run(INIT, steps).value)
  }

  function RepliesOf(effects: seq<Effect>): seq<Frame> {
    if effects == [] then []
    else
      var e := effects[|effects| - 1];
      RepliesOf(effects[..|effects| - 1]) + if e.Replied? then [e.frame] else []
  }

  function ResolvedOf(effects: seq<Effect>): seq<set<(RequestId, Channel)>> {
    if effects == [] then []
    else
      var e := effects[|effects| - 1];
      ResolvedOf(effects[..|effects| - 1]) + if e.Resolved? then [{(e.id, Filled(e.result))}] else []
  }

  lemma EffectShows(s: Shared, t: Shared, e: Effect)
    requires Did(s, t, e)
    ensures Grown(s.sent, t.sent) == if e.Replied? then [e.frame] else []
    ensures Removed(s, t) == if e.Resolved? then {(e.id, Filled(e.result))} else {}
  {
  }

  lemma NothingShows(s: State, t: State)
    requires DidNothing(s, t)
    ensures Grown(s.sh.sent, t.sh.sent) == []
    ensures t.loop.Failing? || Removed(s.sh, t.sh) == {}
  {
  }

  lemma StepShows(s: State, step: Step, t: State)
    requires EffectIsReal(s, step, t)
    ensures RepliesOf(t.effects) == RepliesOf(s.effects) + StepPuts(s, step, t)
    ensures ResolvedOf(t.effects) == ResolvedOf(s.effects) + StepDelivers(s, step, t)
  {
    if OfLoop(step) {
      if t.effects == s.effects {
        NothingShows(s, t);
      } else {
        EffectShows(s.sh, t.sh, t.effects[|s.effects|]);
      }
    }
  }

  lemma {:induction false} EffectsAreReal(steps: seq<Step>)
    requires Run(INIT, steps).Some?
    ensures PutByLoop(steps) == RepliesOf(Run(INIT, steps).value.effects)
    ensures DeliveredByLoop(steps) == ResolvedOf(Run(INIT, steps).value.effects)
  {
    if steps != [] {
      var front, step := steps[..|steps| - 1], steps[|steps| - 1];
      EffectsAreReal(front);
      RunKeepsEffects(front);
      RunKeepsGood(INIT, front);
      StepKeepsEffects(Run(INIT, front).value, step);
      StepShows(Run(INIT, front).value, step, Run(INIT, steps).value);
    }
  }

  lemma FirstBadIs(items: seq<Item>, n: nat)
    requires n <= |items| && AllReadable(items[..n])
    requires n < |items| ==> !Readable(items[n])
    ensures FirstBad(items) == n
  {
    forall i | 0 <= i < n ensures Readable(items[i]) {
      assert items[..n][i] == items[i];
    }
  }

  lemma IntakeIsGoodPrefix(received: seq<Item>, handled: seq<Incoming>, broke: bool)
    requires Intake(received, handled, broke)
    ensures handled == Meanings(received[..FirstBad(received)])
    ensures |received| <= FirstBad(received) + 1
    ensures broke <==> FirstBad(received) < |received|
  {
    if !broke { assert received[..|received|] == received; }
    FirstBadIs(received, if broke then |received| - 1 else |received|);
  }

  /** The frames processed are exactly the items before the first bad one, and
      nothing is taken from the channel after it. */
  lemma ProcessedIsGoodPrefix(s: State)
    requires Reachable(s)
    ensures s.handled == Meanings(s.received[..FirstBad(s.received)])
    ensures |s.received| <= FirstBad(s.received) + 1
    ensures Broke(s.loop) <==> FirstBad(s.received) < |s.received|
  {
    var steps :| Run(INIT, steps) == Some(s);
    RunKeepsEffects(steps);
    IntakeIsGoodPrefix(s.received, s.handled, Broke(s.loop));
  }

  /** Each processed frame has exactly one effect, in order (the last one may
      still be in the making). What the loop's steps put on the outbound queue
      are the replies among the effects, in order; what they took out of the
      pending map and delivered are the resolved responses, in order; and the
      broadcast stream is what the effects publish, followed by one
      `TransportClosed` if the loop broke. */
  lemma OneEffectPerFrame(steps: seq<Step>)
    requires Run(INIT, steps).Some?
    ensures
      var s := Run(INIT, steps).value;
      && |s.effects| == |s.handled| - (if Busy(s.loop) then 1 else 0)
      && (forall k :: 0 <= k < |s.effects| ==> Fits(s.handled[k], s.effects[k]))
      && PutByLoop(steps) == RepliesOf(s.effects)
      && DeliveredByLoop(steps) == ResolvedOf(s.effects)
      && s.sh.events == EventsOf(s.effects) + (if s.loop == Stopped(true) then [TransportClosed] else [])
  {
    RunKeepsEffects(steps);
    EffectsAreReal(steps);
  }
}
