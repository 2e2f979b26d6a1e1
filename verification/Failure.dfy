/** What those who wait are told when the inbound loop breaks. */
module Failure {
  import opened Options
  import opened Rpc
  import opened Inner
  import opened Engine
  import opened Correlation
  import opened Effects

  /** The error every waiting request gets. */
  function Told(message: string): RpcResult {
    Failed(RpcError(-32098, message, None))
  }

  /** The loop has broken with `message`, and the channel has been told, or is
      still to be. */
  ghost predicate Tells(s: State, chan: nat, message: string) {
    && chan < |s.sh.channels|
    && (s.loop == Stopped(true) || (s.loop.Failing? && s.loop.message == message))
    && (s.sh.channels[chan] == Filled(Told(message))
        || (s.sh.channels[chan].Open? && s.loop.Failing? && chan in s.loop.entries))
  }

  /** An operation on the map leaves the channel alone: no entry has it. */
  ghost predicate Untold(s: State, chan: nat) {
    chan < |s.sh.channels| && forall k :: k in s.sh.pending ==> s.sh.pending[k] != chan || !s.sh.channels[chan].Open?
  }

  lemma NoEntryHasIt(s: State, chan: nat, message: string)
    requires Good(s) && Tells(s, chan, message)
    ensures Untold(s, chan)
  {
    forall k | k in s.sh.pending ensures s.sh.pending[k] != chan || !s.sh.channels[chan].Open? {
      assert PendingHeld(s, k);
    }
  }

  lemma RegisterLeaves(s: State, id: RequestId, chan: nat)
    requires Untold(s, chan)
    ensures chan < |Register(s.sh, id).channels| && Register(s.sh, id).channels[chan] == s.sh.channels[chan]
  {
  }

  lemma ForgetLeaves(s: State, id: RequestId, chan: nat)
    requires Untold(s, chan)
    ensures chan < |Forget(s.sh, id).channels| && Forget(s.sh, id).channels[chan] == s.sh.channels[chan]
  {
  }

  ghost predicate SameThere(s: State, t: State, chan: nat) {
    && t.loop == s.loop && chan < |s.sh.channels| && chan < |t.sh.channels|
    && t.sh.channels[chan] == s.sh.channels[chan]
  }

  lemma EndLeaves(s: State, u: State, c: nat, call: Call, id: int, o: Outcome, decodes: bool, chan: nat)
    requires SameThere(s, u, chan)
    ensures SameThere(s, EndRequest(u, c, call, id, o, decodes), chan)
  {
  }

  lemma AwaitLeaves(s: State, c: nat, choice: Choice, chan: nat)
    requires PcOf(s, c).Await? && chan < |s.sh.channels| && RequestNext(s, c, PcOf(s, c), choice).Some?
    ensures SameThere(s, RequestNext(s, c, PcOf(s, c), choice).value, chan)
  {
    var Await(call, id, ch) := PcOf(s, c);
    match s.sh.channels[ch]
    case Open =>
    case Filled(Value(v)) => EndLeaves(s, s, c, call, id, Got(v), choice.decodes, chan);
    case Filled(Failed(e)) => EndLeaves(s, s, c, call, id, RpcFailure(e), choice.decodes, chan);
    case Closed => EndLeaves(s, s, c, call, id, ChannelClosed, choice.decodes, chan);
  }

  lemma RequestLeaves(s: State, c: nat, choice: Choice, chan: nat)
    requires Untold(s, chan) && InRequest(PcOf(s, c)) && RequestNext(s, c, PcOf(s, c), choice).Some?
    ensures SameThere(s, RequestNext(s, c, PcOf(s, c), choice).value, chan)
  {
    var pc := PcOf(s, c);
    if pc.Insert? {
      RegisterLeaves(s, Integer(pc.id), chan);
    } else if pc.Unsend? || pc.Expire? {
      ForgetLeaves(s, Integer(pc.id), chan);
      var u := s.(sh := Forget(s.sh, Integer(pc.id)));
      EndLeaves(s, u, c, pc.call, pc.id, if pc.Unsend? then SendFailed else TimedOut, choice.decodes, chan);
    } else if pc.Await? {
      AwaitLeaves(s, c, choice, chan);
    }
  }

  lemma AdvanceLeaves(s: State, c: nat, choice: Choice, chan: nat)
    requires Untold(s, chan) && AdvanceNext(s, c, choice).Some?
    ensures SameThere(s, AdvanceNext(s, c, choice).value, chan)
  {
    if InRequest(PcOf(s, c)) { RequestLeaves(s, c, choice, chan); }
  }

  lemma StepKeepsTelling(s: State, step: Step, chan: nat, message: string)
    requires Good(s) && Tells(s, chan, message) && Next(s, step).Some?
    ensures Tells(Next(s, step).value, chan, message)
  {
    if step.Advance? {
      NoEntryHasIt(s, chan, message);
      AdvanceLeaves(s, step.c, step.choice, chan);
    }
  }

  lemma {:induction false} RunKeepsTelling(s: State, steps: seq<Step>, chan: nat, message: string)
    requires Good(s) && Tells(s, chan, message) && Run(s, steps).Some?
    ensures Good(Run(s, steps).value) && Tells(Run(s, steps).value, chan, message)
  {
    if steps != [] {
      var front := steps[..|steps| - 1];
      RunKeepsTelling(s, front, chan, message);
      StepKeepsTelling(Run(s, front).value, steps[|steps| - 1], chan, message);
      StepKeepsGood(Run(s, front).value, steps[|steps| - 1]);
    }
  }

  /** When the loop takes a bad item, every request that is pending then is
      told why, whatever callers and loop do in between: once the loop has
      stopped, its channel holds error -32098 with the reason. */
  lemma ReasonReachesThePending(s: State, item: Item, id: RequestId, steps: seq<Step>)
    requires Reachable(s) && s.loop.Receiving? && !Readable(item) && id in s.sh.pending
    requires Run(ReceiveNext(s, item), steps).Some?
    ensures
      var t := Run(ReceiveNext(s, item), steps).value;
      var reason := if item.Broken? then item.message else "processing inbound frame failed";
      && s.sh.pending[id] < |t.sh.channels|
      && (t.loop == Stopped(true) ==> t.sh.channels[s.sh.pending[id]] == Filled(Failed(RpcError(-32098, reason, None))))
      && (t.loop == Stopped(true) || t.loop.Failing?)
  {
    ReachableGood(s);
    BeginsTelling(s, item, id);
    var reason := if item.Broken? then item.message else "processing inbound frame failed";
    RunKeepsTelling(ReceiveNext(s, item), steps, s.sh.pending[id], reason);
  }

  lemma BeginsTelling(s: State, item: Item, id: RequestId)
    requires Good(s) && s.loop.Receiving? && !Readable(item) && id in s.sh.pending
    ensures Good(ReceiveNext(s, item))
    ensures
      var reason := if item.Broken? then item.message else "processing inbound frame failed";
      Tells(ReceiveNext(s, item), s.sh.pending[id], reason)
  {
    assert PendingHeld(s, id);
    assert Next(s, Receive(item)) == Some(ReceiveNext(s, item));
    StepKeepsGood(s, Receive(item));
  }
}
