/** Correlation and the pending ledger, over every interleaving. */
module Correlation {
  import opened Options
  import opened Rpc
  import opened Inner
  import opened Engine

  /** What the history says about one id: the first response carrying it as an
      integer after its registration. */
  datatype Mail = Unregistered | Waiting | First(result: RpcResult)

  function Mailbox(log: seq<Entry>, id: int): Mail {
    if log == [] then Unregistered
    else
      var m := Mailbox(log[..|log| - 1], id);
      match log[|log| - 1]
      case Registered(i) => if i == id then Waiting else m
      case Handled(Response(Integer(i), r)) => if i == id && m.Waiting? then First(r) else m
      case _ => m
  }

  /** `r` may reach the holder of `id`: it is the first response to it, or,
      when none was processed, the failure injected as the loop stopped. */
  ghost predicate Legitimate(log: seq<Entry>, id: int, r: RpcResult) {
    || Mailbox(log, id) == First(r)
    || (Mailbox(log, id) == Waiting && LoopFailed in log
        && r.Failed? && r.error.code == RPC_ERROR_CODE_TRANSPORT_FAILURE)
  }

  /** A caller's part in the request it is inside: it has an id, it listens on
      a channel, or it has given up and is about to remove its entry. */
  datatype Stake = Outside | Numbered(id: int) | Listening(id: int, chan: nat) | Leaving(id: int, chan: nat)

  function StakeAt(pc: Pc): Stake {
    match pc
    case Insert(_, id) => Numbered(id)
    case Send(_, id, chan) => Listening(id, chan)
    case Await(_, id, chan) => Listening(id, chan)
    case Unsend(_, id, chan) => Leaving(id, chan)
    case Expire(_, id, chan) => Leaving(id, chan)
    case _ => Outside
  }

  function StakeOf(s: State, c: nat): Stake {
    StakeAt(PcOf(s, c))
  }

  predicate HoldsChannel(k: Stake) {
    k.Listening? || k.Leaving?
  }

  /** Every id ever allocated is either held by exactly one caller still inside
      the request, or has exactly one outcome. */
  ghost predicate Ledger(s: State) {
    && (forall c :: !StakeOf(s, c).Outside? ==>
          var id := StakeOf(s, c).id; id !in s.outcomes && id in s.owner && s.owner[id] == c)
    && (forall i :: i in s.outcomes ==> i in s.owner)
    && s.sh.nextId >= 1
    && (forall i :: i in s.owner <==> 1 <= i < s.sh.nextId)
    && (forall i :: i in s.owner && i !in s.outcomes ==>
          !StakeOf(s, s.owner[i]).Outside? && StakeOf(s, s.owner[i]).id == i)
  }

  ghost predicate SenderAlive(s: State, k: Stake)
    requires HoldsChannel(k)
  {
    || (Integer(k.id) in s.sh.pending && s.sh.pending[Integer(k.id)] == k.chan)
    || (s.loop.Failing? && k.chan in s.loop.entries)
  }

  /** `pending` holds ids of callers inside a request only, each with its own
      channel, and no sender is dropped while its caller listens. */
  ghost predicate Channels(s: State) {
    && (forall c :: HoldsChannel(StakeOf(s, c)) ==> StakeOf(s, c).chan < |s.sh.channels|)
    && (forall c, d :: c != d && HoldsChannel(StakeOf(s, c)) && HoldsChannel(StakeOf(s, d)) ==>
          StakeOf(s, c).chan != StakeOf(s, d).chan)
    && (forall k :: k in s.sh.pending ==> PendingHeld(s, k))
    && (s.loop.Failing? ==> forall e :: e in s.loop.entries ==> e < |s.sh.channels|)
    && (forall c :: StakeOf(s, c).Listening? ==> Heard(s, StakeOf(s, c)))
  }

  ghost predicate PendingHeld(s: State, k: RequestId)
    requires k in s.sh.pending
  {
    && k.Integer? && k.n in s.owner && HoldsChannel(StakeOf(s, s.owner[k.n]))
    && StakeOf(s, s.owner[k.n]).id == k.n && StakeOf(s, s.owner[k.n]).chan == s.sh.pending[k]
    && s.sh.pending[k] < |s.sh.channels| && s.sh.channels[s.sh.pending[k]].Open?
    && (s.loop.Failing? ==> s.sh.pending[k] !in s.loop.entries)
  }

  ghost predicate Heard(s: State, k: Stake)
    requires k.Listening?
  {
    && k.chan < |s.sh.channels|
    && match s.sh.channels[k.chan]
       case Open => SenderAlive(s, k) && Mailbox(s.log, k.id) == Waiting
       case Filled(r) => Legitimate(s.log, k.id, r)
       case Closed => false
  }

  ghost predicate OutcomeJustified(log: seq<Entry>, id: int, o: Outcome) {
    match o
    case Got(v) => Mailbox(log, id) == First(Value(v))
    case RpcFailure(e) => Legitimate(log, id, Failed(e))
    case ChannelClosed => false
    case SendFailed => true
    case TimedOut => true
  }

  ghost predicate Answers(s: State) {
    forall i :: i in s.outcomes ==> OutcomeJustified(s.log, i, s.outcomes[i])
  }

  ghost predicate Inv(s: State) {
    Ledger(s) && Channels(s) && Answers(s)
  }

  // ----- steps that leave ids, channels and outcomes alone

  ghost predicate SameLedger(s: State, t: State) {
    && t.owner == s.owner && t.outcomes == s.outcomes && t.sh.nextId == s.sh.nextId
    && (forall c :: Follows(StakeOf(s, c), StakeOf(t, c)))
  }

  predicate Follows(k: Stake, l: Stake) {
    l == k || (k.Listening? && l == Leaving(k.id, k.chan))
  }

  predicate Extends(log: seq<Entry>, log': seq<Entry>) {
    log' == log || (|log'| == |log| + 1 && log'[..|log|] == log)
  }

  /** The history grew by something no mailbox looks at. */
  predicate Silent(log: seq<Entry>, log': seq<Entry>) {
    Extends(log, log') && (log' == log
        || (!log'[|log|].Registered? && !log'[|log|].Handled? && !log'[|log|].LoopFailed?))
  }

  lemma SilentMail(log: seq<Entry>, log': seq<Entry>)
    requires Silent(log, log')
    ensures forall i :: Mailbox(log', i) == Mailbox(log, i)
    ensures LoopFailed in log' <==> LoopFailed in log
  {
    if log' != log {
      assert log' == log + [log'[|log|]];
    }
  }

  lemma QuietLedger(s: State, t: State)
    requires Ledger(s) && SameLedger(s, t)
    ensures Ledger(t)
  {
    forall c | !StakeOf(t, c).Outside?
      ensures StakeOf(t, c).id !in t.outcomes && StakeOf(t, c).id in t.owner && t.owner[StakeOf(t, c).id] == c
    {
      assert Follows(StakeOf(s, c), StakeOf(t, c));
    }
    forall i | i in t.owner && i !in t.outcomes
      ensures !StakeOf(t, t.owner[i]).Outside? && StakeOf(t, t.owner[i]).id == i
    {
      assert Follows(StakeOf(s, s.owner[i]), StakeOf(t, t.owner[i]));
    }
  }

  lemma QuietChannels(s: State, t: State)
    requires Ledger(s) && Channels(s) && SameLedger(s, t)
    requires t.sh.pending == s.sh.pending && t.sh.channels == s.sh.channels
    requires t.loop == s.loop || (!s.loop.Failing? && !t.loop.Failing?)
    requires forall i :: Mailbox(t.log, i) == Mailbox(s.log, i)
    requires LoopFailed in s.log ==> LoopFailed in t.log
    ensures Channels(t)
  {
    forall c ensures Follows(StakeOf(s, c), StakeOf(t, c)) {}
    forall k | k in t.sh.pending ensures PendingHeld(t, k) {
      assert PendingHeld(s, k);
    }
    forall c | StakeOf(t, c).Listening? ensures Heard(t, StakeOf(t, c)) {
      assert Heard(s, StakeOf(s, c));
    }
  }

  /** What a step that only moves callers about, publishes or sends does. */
  lemma QuietKeepsInv(s: State, t: State)
    requires Inv(s) && SameLedger(s, t) && Silent(s.log, t.log)
    requires t.sh.pending == s.sh.pending && t.sh.channels == s.sh.channels
    requires t.loop == s.loop || (!s.loop.Failing? && !t.loop.Failing?)
    ensures Inv(t)
  {
    SilentMail(s.log, t.log);
    QuietLedger(s, t);
    QuietChannels(s, t);
    forall i | i in t.outcomes ensures OutcomeJustified(t.log, i, t.outcomes[i]) {
      assert OutcomeJustified(s.log, i, s.outcomes[i]);
    }
  }

  // ----- allocation and registration

  lemma AllocKeepsInv(s: State, c: nat, choice: Choice)
    requires Inv(s) && PcOf(s, c).AllocId?
    ensures Inv(RequestNext(s, c, PcOf(s, c), choice).value)
  {
    var t := RequestNext(s, c, PcOf(s, c), choice).value;
    var id := s.sh.nextId;
    assert id !in s.owner;
    forall d ensures StakeOf(t, d) == if d == c then Numbered(id) else StakeOf(s, d) {}
    forall i | i in t.owner && i !in t.outcomes
      ensures !StakeOf(t, t.owner[i]).Outside? && StakeOf(t, t.owner[i]).id == i
    {}
    assert Channels(t) by {
      forall k | k in t.sh.pending ensures PendingHeld(t, k) {
        assert PendingHeld(s, k);
      }
      forall d | StakeOf(t, d).Listening? ensures Heard(t, StakeOf(t, d)) {
        assert Heard(s, StakeOf(s, d));
      }
    }
    assert Answers(t);
  }

  lemma InsertKeepsInv(s: State, c: nat, choice: Choice)
    requires Inv(s) && PcOf(s, c).Insert?
    ensures Inv(RequestNext(s, c, PcOf(s, c), choice).value)
  {
    var t := RequestNext(s, c, PcOf(s, c), choice).value;
    var id, chan := PcOf(s, c).id, |s.sh.channels|;
    assert StakeOf(s, c) == Numbered(id);
    assert Integer(id) !in s.sh.pending;
    assert t.log == s.log + [Registered(id)];
    forall i ensures Mailbox(t.log, i) == if i == id then Waiting else Mailbox(s.log, i) {}
    assert LoopFailed in s.log ==> LoopFailed in t.log;
    forall d ensures StakeOf(t, d) == if d == c then Listening(id, chan) else StakeOf(s, d) {}
    assert Ledger(t);
    assert Channels(t) by {
      forall d, e | d != e && HoldsChannel(StakeOf(t, d)) && HoldsChannel(StakeOf(t, e))
        ensures StakeOf(t, d).chan != StakeOf(t, e).chan
      {}
      forall k | k in t.sh.pending ensures PendingHeld(t, k) {
        if k != Integer(id) { assert PendingHeld(s, k); }
      }
      forall d | StakeOf(t, d).Listening? ensures Heard(t, StakeOf(t, d)) {
        if d != c {
          assert Heard(s, StakeOf(s, d));
          assert StakeOf(s, d).id != id;
        }
      }
    }
    forall i | i in t.outcomes ensures OutcomeJustified(t.log, i, t.outcomes[i]) {
      assert OutcomeJustified(s.log, i, s.outcomes[i]) && i != id;
    }
  }

  // ----- the ways a request ends

  /** A caller leaves with an outcome the history justifies, and takes nothing
      but its own entry out of the map. */
  ghost predicate Ends(s: State, t: State, c: nat, o: Outcome) {
    && HoldsChannel(StakeOf(s, c))
    && t.owner == s.owner && t.sh.nextId == s.sh.nextId && t.loop == s.loop && Silent(s.log, t.log)
    && var id := StakeOf(s, c).id;
    && t.outcomes == s.outcomes[id := o] && OutcomeJustified(s.log, id, o)
    && (forall d :: StakeOf(t, d) == if d == c then Outside else StakeOf(s, d))
    && ((t.sh == s.sh && Integer(id) !in s.sh.pending) || t.sh == Forget(s.sh, Integer(id)))
  }

  lemma EndKeepsLedger(s: State, t: State, c: nat, o: Outcome)
    requires Ledger(s) && Ends(s, t, c, o)
    ensures Ledger(t)
  {
    forall d | !StakeOf(t, d).Outside? ensures StakeOf(t, d).id !in t.outcomes {
      assert d != c && StakeOf(s, d).id != StakeOf(s, c).id;
    }
  }

  lemma EndKeepsPending(s: State, t: State, c: nat, o: Outcome)
    requires Inv(s) && Ends(s, t, c, o)
    ensures t.sh.pending == s.sh.pending - {Integer(StakeOf(s, c).id)} && |t.sh.channels| == |s.sh.channels|
    ensures forall k :: k in t.sh.pending ==> PendingHeld(t, k)
  {
    var id := StakeOf(s, c).id;
    assert Integer(id) in s.sh.pending ==> PendingHeld(s, Integer(id));
    forall k | k in t.sh.pending ensures PendingHeld(t, k) {
      assert PendingHeld(s, k);
    }
  }

  lemma EndKeepsHeard(s: State, t: State, c: nat, o: Outcome, d: nat)
    requires Inv(s) && Ends(s, t, c, o) && StakeOf(t, d).Listening?
    ensures Heard(t, StakeOf(t, d))
  {
    SilentMail(s.log, t.log);
    assert d != c && Heard(s, StakeOf(s, d));
    var id := Integer(StakeOf(s, c).id);
    assert id in s.sh.pending ==> PendingHeld(s, id);
  }

  lemma EndKeepsChannels(s: State, t: State, c: nat, o: Outcome)
    requires Inv(s) && Ends(s, t, c, o)
    ensures Channels(t)
  {
    EndKeepsPending(s, t, c, o);
    forall d | StakeOf(t, d).Listening? ensures Heard(t, StakeOf(t, d)) {
      EndKeepsHeard(s, t, c, o, d);
    }
  }

  lemma EndKeepsInv(s: State, t: State, c: nat, o: Outcome)
    requires Inv(s) && Ends(s, t, c, o)
    ensures Inv(t)
  {
    SilentMail(s.log, t.log);
    EndKeepsLedger(s, t, c, o);
    EndKeepsChannels(s, t, c, o);
    forall i | i in t.outcomes ensures OutcomeJustified(t.log, i, t.outcomes[i]) {
      if i != StakeOf(s, c).id { assert OutcomeJustified(s.log, i, s.outcomes[i]); }
    }
  }

  lemma RequestEnding(s: State, u: State, c: nat, call: Call, o: Outcome, decodes: bool)
    requires HoldsChannel(StakeOf(s, c)) && OutcomeJustified(s.log, StakeOf(s, c).id, o)
    requires var k := Integer(StakeOf(s, c).id); (u == s && k !in s.sh.pending) || u == s.(sh := Forget(s.sh, k))
    ensures Ends(s, EndRequest(u, c, call, StakeOf(s, c).id, o, decodes), c, o)
  {
    var t := EndRequest(u, c, call, StakeOf(s, c).id, o, decodes);
    assert t.sh == u.sh && t.callers == s.callers[c := PcOf(t, c)] && StakeOf(t, c).Outside?;
  }

  lemma RequestEnds(s: State, u: State, c: nat, call: Call, o: Outcome, decodes: bool)
    requires Inv(s) && HoldsChannel(StakeOf(s, c)) && OutcomeJustified(s.log, StakeOf(s, c).id, o)
    requires var k := Integer(StakeOf(s, c).id); (u == s && k !in s.sh.pending) || u == s.(sh := Forget(s.sh, k))
    ensures Inv(EndRequest(u, c, call, StakeOf(s, c).id, o, decodes))
  {
    RequestEnding(s, u, c, call, o, decodes);
    EndKeepsInv(s, EndRequest(u, c, call, StakeOf(s, c).id, o, decodes), c, o);
  }

  lemma UnsendKeepsInv(s: State, c: nat, choice: Choice)
    requires Inv(s) && PcOf(s, c).Unsend?
    ensures Inv(RequestNext(s, c, PcOf(s, c), choice).value)
  {
    var Unsend(call, id, _) := PcOf(s, c);
    RequestEnds(s, s.(sh := Forget(s.sh, Integer(id))), c, call, SendFailed, choice.decodes);
  }

  lemma ExpireKeepsInv(s: State, c: nat, choice: Choice)
    requires Inv(s) && PcOf(s, c).Expire?
    ensures Inv(RequestNext(s, c, PcOf(s, c), choice).value)
  {
    var Expire(call, id, _) := PcOf(s, c);
    RequestEnds(s, s.(sh := Forget(s.sh, Integer(id))), c, call, TimedOut, choice.decodes);
  }

  lemma TimerKeepsInv(s: State, c: nat, call: Call, id: int, chan: nat)
    requires Inv(s) && PcOf(s, c) == Await(call, id, chan)
    ensures Inv(At(s, c, Expire(call, id, chan)))
  {
    var t := At(s, c, Expire(call, id, chan));
    forall d ensures Follows(StakeOf(s, d), StakeOf(t, d)) {}
    QuietKeepsInv(s, t);
  }

  lemma ListenKeepsInv(s: State, c: nat, choice: Choice)
    requires Inv(s) && PcOf(s, c).Await? && RequestNext(s, c, PcOf(s, c), choice).Some?
    ensures Inv(RequestNext(s, c, PcOf(s, c), choice).value)
  {
    var Await(call, id, chan) := PcOf(s, c);
    assert Heard(s, StakeOf(s, c));
    match s.sh.channels[chan]
    case Open => TimerKeepsInv(s, c, call, id, chan);
    case Filled(r) =>
      assert Integer(id) !in s.sh.pending;
      RequestEnds(s, s, c, call, if r.Value? then Got(r.value) else RpcFailure(r.error), choice.decodes);
  }

  // ----- the inbound loop

  lemma ResponseKeepsInv(s: State, item: Item, id: RequestId, r: RpcResult)
    requires Good(s) && s.loop.Receiving? && item.Payload? && ClassifyIncoming(item.value) == Response(id, r)
    ensures Inv(ReceiveNext(s, item))
  {
    var t := ReceiveNext(s, item);
    assert t.log == s.log + [Handled(Response(id, r))];
    forall i ensures Mailbox(t.log, i) ==
                     if id == Integer(i) && Mailbox(s.log, i).Waiting? then First(r) else Mailbox(s.log, i) {}
    assert LoopFailed in s.log ==> LoopFailed in t.log;
    forall d ensures StakeOf(t, d) == StakeOf(s, d) {}
    assert Ledger(t);
    ResponseKeepsChannels(s, t, id, r);
    forall i | i in t.outcomes ensures OutcomeJustified(t.log, i, t.outcomes[i]) {
      assert OutcomeJustified(s.log, i, s.outcomes[i]);
    }
  }

  lemma ResponseKeepsChannels(s: State, t: State, id: RequestId, r: RpcResult)
    requires Good(s) && s.loop.Receiving? && t.sh == Resolve(s.sh, id, r)
    requires t.callers == s.callers && t.owner == s.owner && !t.loop.Failing?
    requires LoopFailed in s.log ==> LoopFailed in t.log
    requires forall i :: Mailbox(t.log, i) ==
                         if id == Integer(i) && Mailbox(s.log, i).Waiting? then First(r) else Mailbox(s.log, i)
    ensures Channels(t)
  {
    forall d ensures StakeOf(t, d) == StakeOf(s, d) {}
    if id in s.sh.pending { assert PendingHeld(s, id); }
    forall k | k in t.sh.pending ensures PendingHeld(t, k) {
      assert PendingHeld(s, k);
      if id in s.sh.pending { assert s.owner[k.n] != s.owner[id.n]; }
    }
    forall d | StakeOf(t, d).Listening? ensures Heard(t, StakeOf(t, d)) {
      assert Heard(s, StakeOf(s, d));
    }
  }

  lemma BeginFailingKeepsInv(s: State, message: string)
    requires Inv(s) && s.loop.Receiving?
    ensures Inv(BeginFailing(s, message))
  {
    var t := BeginFailing(s, message);
    assert t.log == s.log + [LoopFailed];
    forall i ensures Mailbox(t.log, i) == Mailbox(s.log, i) {}
    forall d ensures StakeOf(t, d) == StakeOf(s, d) {}
    forall e | e in t.loop.entries ensures e < |t.sh.channels| {
      var k :| k in s.sh.pending && s.sh.pending[k] == e;
      assert PendingHeld(s, k);
    }
    forall d | StakeOf(t, d).Listening? ensures Heard(t, StakeOf(t, d)) {
      assert Heard(s, StakeOf(s, d));
    }
    forall i | i in t.outcomes ensures OutcomeJustified(t.log, i, t.outcomes[i]) {
      assert OutcomeJustified(s.log, i, s.outcomes[i]);
    }
  }

  /** The history tells whether the loop failed. */
  ghost predicate FailureRecorded(s: State) {
    LoopFailed in s.log <==> s.loop.Failing? || s.loop == Stopped(true)
  }

  lemma FailOneKeepsInv(s: State, chan: nat)
    requires Inv(s) && FailureRecorded(s) && s.loop.Failing? && chan in s.loop.entries
    ensures Inv(LoopNext(s, FailOne(chan)).value)
  {
    var t := LoopNext(s, FailOne(chan)).value;
    forall d ensures StakeOf(t, d) == StakeOf(s, d) {}
    forall k | k in t.sh.pending ensures PendingHeld(t, k) {
      assert PendingHeld(s, k);
    }
    forall d | StakeOf(t, d).Listening? ensures Heard(t, StakeOf(t, d)) {
      FailOneIsHeard(s, chan, StakeOf(s, d));
    }
  }

  lemma FailOneIsHeard(s: State, chan: nat, k: Stake)
    requires FailureRecorded(s) && s.loop.Failing? && chan in s.loop.entries && k.Listening? && Heard(s, k)
    ensures Heard(LoopNext(s, FailOne(chan)).value, k)
  {
  }

  lemma AnnounceKeepsInv(s: State)
    requires Inv(s) && s.loop.Failing? && s.loop.entries == {}
    ensures Inv(LoopNext(s, Announce).value)
  {
    var t := LoopNext(s, Announce).value;
    forall d ensures StakeOf(t, d) == StakeOf(s, d) {}
    forall k | k in t.sh.pending ensures PendingHeld(t, k) {
      assert PendingHeld(s, k);
    }
    forall d | StakeOf(t, d).Listening? ensures Heard(t, StakeOf(t, d)) {
      assert Heard(s, StakeOf(s, d));
    }
  }

  // ----- every step, every run

  ghost predicate Good(s: State) {
    Inv(s) && FailureRecorded(s)
  }

  predicate Passive(pc: Pc) {
    !pc.AllocId? && !pc.Insert? && !pc.Unsend? && !pc.Expire? && !pc.Await? && !pc.Idle?
  }

  /** Everything a passive step leaves alone. */
  ghost predicate Undisturbed(s: State, t: State, c: nat) {
    && t.owner == s.owner && t.outcomes == s.outcomes && t.sh.nextId == s.sh.nextId
    && t.sh.pending == s.sh.pending && t.sh.channels == s.sh.channels
    && t.loop == s.loop && Silent(s.log, t.log)
    && c in t.callers && t.callers == s.callers[c := t.callers[c]] && Follows(StakeOf(s, c), StakeOf(t, c))
  }

  lemma PassiveRequest(s: State, c: nat, choice: Choice)
    requires (PcOf(s, c).Gate? || PcOf(s, c).Send?) && RequestNext(s, c, PcOf(s, c), choice).Some?
    ensures Undisturbed(s, RequestNext(s, c, PcOf(s, c), choice).value, c)
  {
  }

  lemma PassiveNote(s: State, c: nat)
    requires InNote(PcOf(s, c)) && NoteNext(s, c, PcOf(s, c)).Some?
    ensures Undisturbed(s, NoteNext(s, c, PcOf(s, c)).value, c)
  {
  }

  lemma PassiveEnsure(s: State, c: nat)
    requires InEnsure(PcOf(s, c)) && EnsureNext(s, c, PcOf(s, c)).Some?
    ensures Undisturbed(s, EnsureNext(s, c, PcOf(s, c)).value, c)
  {
  }

  lemma PassiveStep(s: State, c: nat, choice: Choice)
    requires Passive(PcOf(s, c)) && AdvanceNext(s, c, choice).Some?
    ensures Undisturbed(s, AdvanceNext(s, c, choice).value, c)
  {
    if PcOf(s, c).Gate? || PcOf(s, c).Send? {
      PassiveRequest(s, c, choice);
    } else if InEnsure(PcOf(s, c)) {
      PassiveEnsure(s, c);
    } else {
      PassiveNote(s, c);
    }
  }

  lemma RequestKeepsInv(s: State, c: nat, choice: Choice)
    requires Inv(s) && InRequest(PcOf(s, c)) && !Passive(PcOf(s, c)) && RequestNext(s, c, PcOf(s, c), choice).Some?
    ensures Inv(RequestNext(s, c, PcOf(s, c), choice).value)
  {
    match PcOf(s, c)
    case AllocId(_) => AllocKeepsInv(s, c, choice);
    case Insert(_, _) => InsertKeepsInv(s, c, choice);
    case Unsend(_, _, _) => UnsendKeepsInv(s, c, choice);
    case Expire(_, _, _) => ExpireKeepsInv(s, c, choice);
    case Await(_, _, _) => ListenKeepsInv(s, c, choice);
  }

  lemma RequestKeepsLoop(s: State, c: nat, choice: Choice)
    requires InRequest(PcOf(s, c)) && !Passive(PcOf(s, c)) && RequestNext(s, c, PcOf(s, c), choice).Some?
    ensures
      var t := RequestNext(s, c, PcOf(s, c), choice).value;
      t.loop == s.loop && (LoopFailed in t.log <==> LoopFailed in s.log)
  {
  }

  lemma AdvanceKeepsGood(s: State, c: nat, choice: Choice)
    requires Good(s) && AdvanceNext(s, c, choice).Some?
    ensures Good(AdvanceNext(s, c, choice).value)
  {
    if Passive(PcOf(s, c)) {
      PassiveStep(s, c, choice);
      UndisturbedKeepsGood(s, AdvanceNext(s, c, choice).value, c);
    } else {
      RequestKeepsInv(s, c, choice);
      RequestKeepsLoop(s, c, choice);
    }
  }

  lemma UndisturbedKeepsGood(s: State, t: State, c: nat)
    requires Good(s) && Undisturbed(s, t, c)
    ensures Good(t)
  {
    forall d ensures Follows(StakeOf(s, d), StakeOf(t, d)) {}
    QuietKeepsInv(s, t);
  }

  lemma OtherLoopStep(s: State, step: Step)
    requires step.EndOfStream? || step.FindHandler? || step.HandlerDone? || step.SendReply?
    requires LoopNext(s, step).Some?
    ensures var t := LoopNext(s, step).value;
      && t.callers == s.callers && t.owner == s.owner && t.outcomes == s.outcomes && t.sh.nextId == s.sh.nextId
      && t.sh.pending == s.sh.pending && t.sh.channels == s.sh.channels && Silent(s.log, t.log)
      && !s.loop.Failing? && !t.loop.Failing? && s.loop != Stopped(true) && t.loop != Stopped(true)
  {
  }

  lemma OtherLoopKeepsGood(s: State, t: State)
    requires Good(s) && t.callers == s.callers && t.owner == s.owner && t.outcomes == s.outcomes
        && t.sh.nextId == s.sh.nextId
    requires t.sh.pending == s.sh.pending && t.sh.channels == s.sh.channels && Silent(s.log, t.log)
    requires !s.loop.Failing? && !t.loop.Failing? && s.loop != Stopped(true) && t.loop != Stopped(true)
    ensures Good(t)
  {
    forall d ensures Follows(StakeOf(s, d), StakeOf(t, d)) {}
    QuietKeepsInv(s, t);
  }

  lemma LoopKeepsGood(s: State, step: Step)
    requires Good(s) && OfLoop(step) && LoopNext(s, step).Some?
    ensures Good(LoopNext(s, step).value)
  {
    if step.FailOne? {
      FailOneKeepsInv(s, step.chan);
    } else if step.Announce? {
      AnnounceKeepsInv(s);
    } else if step.Receive? {
      ReceiveKeepsGood(s, step.item);
    } else {
      OtherLoopStep(s, step);
      OtherLoopKeepsGood(s, LoopNext(s, step).value);
    }
  }

  lemma NoticeKeepsGood(s: State, item: Item, m: Incoming)
    requires Good(s) && s.loop.Receiving? && item.Payload? && ClassifyIncoming(item.value) == m
        && (m.Notification? || m.ServerRequest?)
    ensures Good(ReceiveNext(s, item))
  {
    var u := ReceiveNext(s, item);
    assert u.log == s.log + [Handled(m)];
    forall i ensures Mailbox(u.log, i) == Mailbox(s.log, i) {}
    assert LoopFailed in u.log <==> LoopFailed in s.log;
    forall d ensures Follows(StakeOf(s, d), StakeOf(u, d)) {}
    QuietLedger(s, u);
    QuietChannels(s, u);
    forall i | i in u.outcomes ensures OutcomeJustified(u.log, i, u.outcomes[i]) {
      assert OutcomeJustified(s.log, i, s.outcomes[i]);
    }
  }

  lemma BadItemKeepsGood(s: State, item: Item, message: string)
    requires Good(s) && s.loop.Receiving?
    ensures Good(BeginFailing(s.(received := s.received + [item]), message))
  {
    var t := s.(received := s.received + [item]);
    OtherLoopKeepsGood(s, t);
    BeginFailingKeepsInv(t, message);
  }

  lemma ReceiveKeepsGood(s: State, item: Item)
    requires Good(s) && s.loop.Receiving?
    ensures Good(ReceiveNext(s, item))
  {
    match item
    case Broken(message) => BadItemKeepsGood(s, item, message);
    case Payload(v) =>
      match ClassifyIncoming(v)
      case Invalid => BadItemKeepsGood(s, item, "processing inbound frame failed");
      case Response(id, r) =>
        ResponseKeepsInv(s, item, id, r);
        assert ReceiveNext(s, item).log == s.log + [Handled(Response(id, r))];
      case m => NoticeKeepsGood(s, item, m);
  }

  lemma StepKeepsGood(s: State, step: Step)
    requires Good(s) && Next(s, step).Some?
    ensures Good(Next(s, step).value)
  {
    var t := Next(s, step).value;
    if step.Advance? {
      AdvanceKeepsGood(s, step.c, step.choice);
    } else if OfLoop(step) {
      LoopKeepsGood(s, step);
    } else {
      forall d ensures Follows(StakeOf(s, d), StakeOf(t, d)) {}
      QuietKeepsInv(s, t);
    }
  }

  lemma {:induction false} RunKeepsGood(s: State, steps: seq<Step>)
    requires Good(s) && Run(s, steps).Some?
    ensures Good(Run(s, steps).value)
  {
    if steps != [] {
      var front := steps[..|steps| - 1];
      RunKeepsGood(s, front);
      StepKeepsGood(Run(s, front).value, steps[|steps| - 1]);
    }
  }

  lemma ReachableGood(s: State)
    requires Reachable(s)
    ensures Good(s)
  {
    var steps :| Run(INIT, steps) == Some(s);
    RunKeepsGood(INIT, steps);
  }
}
