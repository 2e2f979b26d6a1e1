/** What callers may rely on, in every reachable state and over every run. */
module Requests {
  import opened Options
  import opened Json
  import opened Rpc
  import opened Inner
  import opened Engine
  import opened Correlation

  predicate ResponseTo(e: Entry, id: int) {
    e.Handled? && e.incoming.Response? && e.incoming.id == Integer(id)
  }

  /** At position `b` the history processed the response `r` to `id`, after
      the registration at `a` and with no other response to it in between. */
  ghost predicate FirstResponseAt(log: seq<Entry>, id: int, r: RpcResult, a: nat, b: nat) {
    && a < b < |log| && log[a] == Registered(id)
    && log[b] == Handled(Response(Integer(id), r))
    && (forall j :: a < j < b ==> !ResponseTo(log[j], id))
  }

  lemma {:induction false} WaitingSince(log: seq<Entry>, id: int) returns (a: nat)
    requires Mailbox(log, id) == Waiting
    ensures a < |log| && log[a] == Registered(id)
    ensures forall j :: a < j < |log| ==> !ResponseTo(log[j], id)
  {
    var n := |log| - 1;
    if log[n] == Registered(id) {
      a := n;
    } else {
      a := WaitingSince(log[..n], id);
      assert !ResponseTo(log[n], id);
    }
  }

  lemma {:induction false} FirstResponse(log: seq<Entry>, id: int, r: RpcResult) returns (a: nat, b: nat)
    requires Mailbox(log, id) == First(r)
    ensures FirstResponseAt(log, id, r, a, b)
  {
    var n := |log| - 1;
    if Mailbox(log[..n], id) == First(r) && log[n] != Registered(id) {
      a, b := FirstResponse(log[..n], id, r);
    } else {
      a := WaitingSince(log[..n], id);
      b := n;
    }
  }

  /** A value handed to the caller holding `id` is the payload of the first
      response with id `Integer(id)` processed after the request was
      registered; responses that are late, repeated, unknown or carry a
      string id reach nobody. */
  lemma ValueComesFromFirstResponse(s: State, id: int, v: Json)
    requires Reachable(s) && id in s.outcomes && s.outcomes[id] == Got(v)
    ensures exists a, b :: FirstResponseAt(s.log, id, Value(v), a, b)
  {
    ReachableGood(s);
    assert OutcomeJustified(s.log, id, s.outcomes[id]);
    var a, b := FirstResponse(s.log, id, Value(v));
  }

  /** An RPC error is either that first response, or the injected transport
      failure; the latter only if the loop failed and no response to the
      request was processed. */
  lemma ErrorComesFromFirstResponseOrFailure(s: State, id: int, e: RpcError)
    requires Reachable(s) && id in s.outcomes && s.outcomes[id] == RpcFailure(e)
    ensures || (exists a, b :: FirstResponseAt(s.log, id, Failed(e), a, b))
            || (e.code == RPC_ERROR_CODE_TRANSPORT_FAILURE && LoopFailed in s.log && Mailbox(s.log, id) == Waiting)
  {
    ReachableGood(s);
    assert OutcomeJustified(s.log, id, s.outcomes[id]);
    if Mailbox(s.log, id) == First(Failed(e)) {
      var a, b := FirstResponse(s.log, id, Failed(e));
    }
  }

  /** The dual: once its first response is processed, a caller that is still
      listening finds exactly that response on its channel. */
  lemma FirstResponseIsDelivered(s: State, c: nat, r: RpcResult)
    requires Reachable(s) && StakeOf(s, c).Listening? && Mailbox(s.log, StakeOf(s, c).id) == First(r)
    ensures StakeOf(s, c).chan < |s.sh.channels| && s.sh.channels[StakeOf(s, c).chan] == Filled(r)
  {
    ReachableGood(s);
    assert Heard(s, StakeOf(s, c));
  }

  /** A caller is inside the request with this id. */
  predicate Holds(s: State, c: nat, id: int) {
    !StakeOf(s, c).Outside? && StakeOf(s, c).id == id
  }

  /** Every id ever allocated has one outcome and no holder, or exactly one
      holder and no outcome; ids are allocated in order and never twice. */
  lemma OneOutcomePerRequest(s: State, id: int)
    requires Reachable(s)
    ensures 1 <= id < s.sh.nextId <==> id in s.outcomes || (exists c :: Holds(s, c, id))
    ensures id in s.outcomes ==> !exists c :: Holds(s, c, id)
    ensures forall c, d :: Holds(s, c, id) && Holds(s, d, id) ==> c == d
  {
    ReachableGood(s);
    if id in s.owner && id !in s.outcomes {
      assert Holds(s, s.owner[id], id);
    }
  }

  /** What a caller's step can do to the shared state. */
  ghost predicate AdvanceShape(s: State, t: State, c: nat) {
    && Extends(s.log, t.log) && t.loop == s.loop
    && (|t.log| > |s.log| ==> !t.log[|s.log|].LoopFailed?)
    && |s.sh.channels| <= |t.sh.channels|
    && (forall i :: 0 <= i < |t.sh.channels| && t.sh.channels[i].Filled? ==>
          i < |s.sh.channels| && s.sh.channels[i].Filled?)
    && (forall k :: k in t.sh.pending ==>
          k in s.sh.pending || (k.Integer? && |t.log| == |s.log| + 1 && t.log[|s.log|] == Registered(k.n)))
    && (forall d :: d != c ==> StakeOf(t, d) == StakeOf(s, d))
    && MovesOn(s, StakeOf(s, c), StakeOf(t, c))
    && (forall i :: i in t.outcomes && i !in s.outcomes ==> LeavesWith(s, StakeOf(s, c), i, t.outcomes[i]))
    && (forall i :: i in s.outcomes ==> i in t.outcomes && (t.outcomes[i] == s.outcomes[i] || Holds(s, c, i)))
  }

  /** The caller's stake stays, is given up, or takes its next form. */
  predicate MovesOn(s: State, k: Stake, l: Stake) {
    || Follows(k, l) || l.Outside?
    || (k.Outside? && l.Numbered?)
    || (k.Numbered? && l == Listening(k.id, |s.sh.channels|))
  }

  predicate LeavesWith(s: State, k: Stake, id: int, o: Outcome) {
    && HoldsChannel(k) && k.id == id
    && (o.TimedOut? || o.SendFailed? || o.ChannelClosed? || (k.chan < |s.sh.channels| && s.sh.channels[k.chan].Filled?))
  }

  lemma UndisturbedShape(s: State, t: State, c: nat)
    requires Undisturbed(s, t, c)
    ensures AdvanceShape(s, t, c)
  {
  }

  lemma AllocShape(s: State, c: nat, choice: Choice)
    requires PcOf(s, c).AllocId?
    ensures AdvanceShape(s, RequestNext(s, c, PcOf(s, c), choice).value, c)
  {
  }

  lemma InsertShape(s: State, c: nat, choice: Choice)
    requires PcOf(s, c).Insert?
    ensures AdvanceShape(s, RequestNext(s, c, PcOf(s, c), choice).value, c)
  {
  }

  lemma EndShape(s: State, u: State, c: nat, call: Call, o: Outcome, decodes: bool)
    requires HoldsChannel(StakeOf(s, c)) && LeavesWith(s, StakeOf(s, c), StakeOf(s, c).id, o)
    requires u == s || u == s.(sh := Forget(s.sh, Integer(StakeOf(s, c).id)))
    ensures AdvanceShape(s, EndRequest(u, c, call, StakeOf(s, c).id, o, decodes), c)
  {
    var t := EndRequest(u, c, call, StakeOf(s, c).id, o, decodes);
    assert t.sh == u.sh && t.outcomes == s.outcomes[StakeOf(s, c).id := o];
    assert StakeOf(t, c).Outside?;
  }

  lemma LeaveShape(s: State, c: nat, choice: Choice)
    requires PcOf(s, c).Unsend? || PcOf(s, c).Expire?
    ensures AdvanceShape(s, RequestNext(s, c, PcOf(s, c), choice).value, c)
  {
    var pc := PcOf(s, c);
    var o := if pc.Unsend? then SendFailed else TimedOut;
    EndShape(s, s.(sh := Forget(s.sh, Integer(pc.id))), c, pc.call, o, choice.decodes);
  }

  lemma AwaitShape(s: State, c: nat, choice: Choice)
    requires PcOf(s, c).Await? && RequestNext(s, c, PcOf(s, c), choice).Some?
    ensures AdvanceShape(s, RequestNext(s, c, PcOf(s, c), choice).value, c)
  {
    var Await(call, id, chan) := PcOf(s, c);
    match s.sh.channels[chan]
    case Open =>
    case Filled(Value(v)) => EndShape(s, s, c, call, Got(v), choice.decodes);
    case Filled(Failed(e)) => EndShape(s, s, c, call, RpcFailure(e), choice.decodes);
    case Closed => EndShape(s, s, c, call, ChannelClosed, choice.decodes);
  }

  lemma StepShape(s: State, c: nat, choice: Choice)
    requires AdvanceNext(s, c, choice).Some?
    ensures AdvanceShape(s, AdvanceNext(s, c, choice).value, c)
  {
    var pc := PcOf(s, c);
    if pc.AllocId? {
      AllocShape(s, c, choice);
    } else if pc.Insert? {
      InsertShape(s, c, choice);
    } else if pc.Unsend? || pc.Expire? {
      LeaveShape(s, c, choice);
    } else if pc.Await? {
      AwaitShape(s, c, choice);
    } else {
      PassiveStep(s, c, choice);
      UndisturbedShape(s, AdvanceNext(s, c, choice).value, c);
    }
  }

  lemma StepKeepsOutcomes(s: State, step: Step, id: int)
    requires Good(s) && Next(s, step).Some? && id in s.outcomes
    ensures var t := Next(s, step).value; id in t.outcomes && t.outcomes[id] == s.outcomes[id]
  {
    if step.Advance? {
      StepShape(s, step.c, step.choice);
      assert !StakeOf(s, step.c).Outside? ==> StakeOf(s, step.c).id != id;
    }
  }

  /** An outcome, once given, is never changed. */
  lemma {:induction false} OutcomesAreFinal(s: State, steps: seq<Step>, id: int)
    requires Good(s) && Run(s, steps).Some? && id in s.outcomes
    ensures var t := Run(s, steps).value; id in t.outcomes && t.outcomes[id] == s.outcomes[id]
  {
    if steps != [] {
      var front := steps[..|steps| - 1];
      OutcomesAreFinal(s, front, id);
      RunKeepsGood(s, front);
      StepKeepsOutcomes(Run(s, front).value, steps[|steps| - 1], id);
    }
  }

  /** An id is in `pending` only while its caller is inside the request. */
  lemma PendingOnlyWhileInside(s: State, k: RequestId)
    requires Reachable(s) && k in s.sh.pending
    ensures k.Integer?
    ensures exists c :: Holds(s, c, k.n) && HoldsChannel(StakeOf(s, c)) && StakeOf(s, c).chan == s.sh.pending[k]
  {
    ReachableGood(s);
    assert PendingHeld(s, k);
    assert Holds(s, s.owner[k.n], k.n);
  }

  /** With no caller inside a request, nothing is left in the map. */
  lemma NoLeak(s: State)
    requires Reachable(s) && forall c :: StakeOf(s, c).Outside?
    ensures s.sh.pending == map[]
  {
    if s.sh.pending != map[] {
      var k :| k in s.sh.pending;
      PendingOnlyWhileInside(s, k);
      assert false;
    }
  }

  /** No sender is dropped unsent while its caller waits, so the source's
      `Ok(Err(_)) => TransportClosed` arm never runs. */
  lemma DroppedSenderUnreachable(s: State)
    requires Reachable(s)
    ensures forall c :: PcOf(s, c).Await? ==>
              PcOf(s, c).chan < |s.sh.channels| && !s.sh.channels[PcOf(s, c).chan].Closed?
    ensures forall id :: id in s.outcomes ==> s.outcomes[id] != ChannelClosed
  {
    ReachableGood(s);
    forall c | PcOf(s, c).Await?
      ensures PcOf(s, c).chan < |s.sh.channels| && !s.sh.channels[PcOf(s, c).chan].Closed?
    {
      assert Heard(s, StakeOf(s, c));
    }
    forall id | id in s.outcomes ensures s.outcomes[id] != ChannelClosed {
      assert OutcomeJustified(s.log, id, s.outcomes[id]);
    }
  }

  // ----- what the end of the inbound loop leaves behind

  function RegisteredSinceFailure(log: seq<Entry>, id: int): bool {
    if log == [] then false
    else
      var e, front := log[|log| - 1], log[..|log| - 1];
      RegisteredSinceFailure(front, id) || (e == Registered(id) && LoopFailed in front)
  }

  /** After a failure, only later registrations can still be in the map. */
  ghost predicate TakenAtFailure(s: State) {
    LoopFailed in s.log ==> forall k :: k in s.sh.pending && k.Integer? ==> RegisteredSinceFailure(s.log, k.n)
  }

  lemma AdvanceKeepsTaken(s: State, t: State, c: nat)
    requires TakenAtFailure(s) && AdvanceShape(s, t, c)
    ensures TakenAtFailure(t)
  {
    if t.log != s.log {
      assert t.log == s.log + [t.log[|s.log|]];
    }
  }

  /** The loop only takes entries out of the map, and empties it on failure. */
  ghost predicate Drains(s: State, t: State) {
    && Extends(s.log, t.log) && t.sh.pending.Keys <= s.sh.pending.Keys
    && (t.log != s.log && t.log[|s.log|].LoopFailed? ==> t.sh.pending == map[])
  }

  lemma FailingDrains(s: State, t: State, message: string)
    requires t.log == s.log && t.sh.pending == s.sh.pending
    ensures Drains(s, BeginFailing(t, message))
  {
  }

  lemma HandlingDrains(s: State, m: Incoming, t: State)
    requires t.log == s.log + [Handled(m)] && t.sh.pending.Keys <= s.sh.pending.Keys
    ensures Drains(s, t)
  {
  }

  lemma ReceiveDrains(s: State, item: Item)
    ensures Drains(s, ReceiveNext(s, item))
  {
    var t := s.(received := s.received + [item]);
    if item.Broken? {
      FailingDrains(s, t, item.message);
    } else if ClassifyIncoming(item.value).Invalid? {
      FailingDrains(s, t, "processing inbound frame failed");
    } else {
      HandlingDrains(s, ClassifyIncoming(item.value), ReceiveNext(s, item));
    }
  }

  lemma LoopDrains(s: State, step: Step)
    requires OfLoop(step) && LoopNext(s, step).Some?
    ensures Drains(s, LoopNext(s, step).value)
  {
    if step.Receive? {
      ReceiveDrains(s, step.item);
    }
  }

  lemma DrainKeepsTaken(s: State, t: State)
    requires TakenAtFailure(s) && Drains(s, t)
    ensures TakenAtFailure(t)
  {
    if t.log != s.log {
      assert t.log == s.log + [t.log[|s.log|]];
    }
  }

  lemma StepKeepsTaken(s: State, step: Step)
    requires TakenAtFailure(s) && Next(s, step).Some?
    ensures TakenAtFailure(Next(s, step).value)
  {
    if step.Advance? {
      StepShape(s, step.c, step.choice);
      AdvanceKeepsTaken(s, Next(s, step).value, step.c);
    } else if OfLoop(step) {
      LoopDrains(s, step);
      DrainKeepsTaken(s, LoopNext(s, step).value);
    }
  }

  lemma {:induction false} RunKeepsTaken(steps: seq<Step>)
    requires Run(INIT, steps).Some?
    ensures TakenAtFailure(Run(INIT, steps).value)
  {
    if steps != [] {
      var front := steps[..|steps| - 1];
      RunKeepsTaken(front);
      StepKeepsTaken(Run(INIT, front).value, steps[|steps| - 1]);
    }
  }

  /** When the loop has stopped on an error, everything that was pending then
      has been answered: a caller still without an answer registered later. */
  lemma FailureAnswersEverythingPending(s: State, c: nat)
    requires Reachable(s) && s.loop == Stopped(true) && StakeOf(s, c).Listening?
    ensures
      var k := StakeOf(s, c);
      && k.chan < |s.sh.channels|
      && (s.sh.channels[k.chan].Open? ==> RegisteredSinceFailure(s.log, k.id))
      && (s.sh.channels[k.chan].Filled? && Mailbox(s.log, k.id) == Waiting ==>
            s.sh.channels[k.chan].result.Failed?
                && s.sh.channels[k.chan].result.error.code == RPC_ERROR_CODE_TRANSPORT_FAILURE)
  {
    ReachableGood(s);
    var steps :| Run(INIT, steps) == Some(s);
    RunKeepsTaken(steps);
    assert Heard(s, StakeOf(s, c));
  }

  /** No answer for `id` has arrived. */
  ghost predicate Unanswered(s: State, id: int) {
    && (id in s.outcomes ==> s.outcomes[id].TimedOut? || s.outcomes[id].SendFailed?)
    && (forall c :: Holds(s, c, id) && HoldsChannel(StakeOf(s, c)) && StakeOf(s, c).chan < |s.sh.channels| ==>
          !s.sh.channels[StakeOf(s, c).chan].Filled?)
  }

  lemma StoppedAdvance(s: State, t: State, c: nat, id: int)
    requires Good(s) && Good(t) && Unanswered(s, id) && AdvanceShape(s, t, c)
    ensures Unanswered(t, id)
  {
    forall d | Holds(t, d, id) && HoldsChannel(StakeOf(t, d)) && StakeOf(t, d).chan < |t.sh.channels|
      ensures !t.sh.channels[StakeOf(t, d).chan].Filled?
    {
      if StakeOf(s, d).Listening? || StakeOf(s, d).Leaving? {
        assert Holds(s, d, id);
      }
    }
    if id in t.outcomes && id !in s.outcomes {
      assert Holds(s, c, id);
      assert OutcomeJustified(t.log, id, t.outcomes[id]);
    }
  }

  lemma OtherStepIsIdle(s: State, step: Step)
    requires s.loop.Stopped? && !step.Advance? && Next(s, step).Some?
    ensures var t := Next(s, step).value;
      t.loop == s.loop && t.outcomes == s.outcomes && t.sh.channels == s.sh.channels
          && (forall d: nat :: StakeOf(t, d) == StakeOf(s, d))
  {
  }

  lemma StoppedStepKeepsUnanswered(s: State, step: Step, id: int)
    requires Good(s) && s.loop.Stopped? && Unanswered(s, id) && Next(s, step).Some?
    ensures Next(s, step).value.loop == s.loop && Unanswered(Next(s, step).value, id)
  {
    var t := Next(s, step).value;
    if step.Advance? {
      StepKeepsGood(s, step);
      StepShape(s, step.c, step.choice);
      StoppedAdvance(s, t, step.c, id);
    } else {
      OtherStepIsIdle(s, step);
      forall d | Holds(t, d, id) && HoldsChannel(StakeOf(t, d)) ensures Holds(s, d, id) {}
    }
  }

  /** After the loop has stopped, by an error or at end of stream, a request
      without an answer can only time out or fail to be sent, in every run. */
  lemma {:induction false} StoppedLoopAnswersNothing(s: State, steps: seq<Step>, id: int)
    requires Good(s) && s.loop.Stopped? && Unanswered(s, id) && Run(s, steps).Some?
    ensures Run(s, steps).value.loop == s.loop && Unanswered(Run(s, steps).value, id)
  {
    if steps != [] {
      var front := steps[..|steps| - 1];
      StoppedLoopAnswersNothing(s, front, id);
      RunKeepsGood(s, front);
      StoppedStepKeepsUnanswered(Run(s, front).value, steps[|steps| - 1], id);
    }
  }
}
