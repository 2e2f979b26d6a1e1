/** `Thread::run`: a whole turn gathered from its deliveries. */
module TurnRun {
  import opened Options
  import opened Threads
  import opened TurnPump

  datatype RunResult =
    | Finished(items: seq<ThreadItem>, finalResponse: string, usage: Option<Usage>)
    | TurnError(message: string)
    | TransportGone

  /** Deliveries after which `run` reads no more; an error event is one,
      though the pump goes on after it. */
  predicate Stops(d: Delivery) {
    !d.Event? || d.event.TurnCompleted? || d.event.TurnFailed? || d.event.ErrorEvent?
  }

  function FirstStop(ds: seq<Delivery>): (n: nat)
    ensures n <= |ds|
    ensures forall i :: 0 <= i < n ==> !Stops(ds[i])
    ensures n < |ds| ==> Stops(ds[n])
  {
    if ds == [] || Stops(ds[0]) then 0 else 1 + FirstStop(ds[1..])
  }

  function CompletedItems(ds: seq<Delivery>): seq<ThreadItem> {
    if ds == [] then []
    else
      var last := ds[|ds| - 1];
      CompletedItems(ds[..|ds| - 1]) + if last.Event? && last.event.ItemCompleted? then [last.event.item] else []
  }

  /** The text of the last agent message that is, or is not, a final answer. */
  function LastAgentText(items: seq<ThreadItem>, finalAnswer: bool): Option<string> {
    if items == [] then None
    else
      var last := items[|items| - 1];
      if last.AgentMessage? && last.finalAnswer == finalAnswer then Some(last.text)
      else LastAgentText(items[..|items| - 1], finalAnswer)
  }

  /** A final answer wins over any other agent message, whatever their order. */
  function FinalResponse(items: seq<ThreadItem>): string {
    GetOr(Or(LastAgentText(items, true), LastAgentText(items, false)), "")
  }

  function ResultOf(ds: seq<Delivery>): RunResult {
    var n := FirstStop(ds);
    if n == |ds| || ds[n].ClosedError? then TransportGone
    else
      match ds[n].event
      case TurnCompleted(usage) => var items := CompletedItems(ds[..n]); Finished(items, FinalResponse(items), usage)
      case TurnFailed(message) => TurnError(message)
      case ErrorEvent(message) => TurnError(message)
      case _ => TransportGone
  }

  /** `items` are the completed items before this one. */
  method UpdateFinalResponseCandidates(item: ThreadItem, final0: Option<string>, fallback0: Option<string>,
      ghost items: seq<ThreadItem>)
    returns (finalAnswer: Option<string>, fallback: Option<string>)
    requires final0 == LastAgentText(items, true) && fallback0 == LastAgentText(items, false)
    ensures finalAnswer == LastAgentText(items + [item], true) && fallback == LastAgentText(items + [item], false)
  {
    finalAnswer, fallback := final0, fallback0;
    if item.AgentMessage? {
      if item.finalAnswer { finalAnswer := Some(item.text); } else { fallback := Some(item.text); }
    }
    assert (items + [item])[..|items|] == items;
  }

  lemma CompletedAppend(ds: seq<Delivery>, d: Delivery)
    ensures CompletedItems(ds + [d])
         == CompletedItems(ds) + if d.Event? && d.event.ItemCompleted? then [d.event.item] else []
  {
    assert (ds + [d])[..|ds|] == ds;
  }

  lemma NextCompleted(ds: seq<Delivery>, i: nat)
    requires i < |ds|
    ensures CompletedItems(ds[..i + 1])
         == CompletedItems(ds[..i]) + if ds[i].Event? && ds[i].event.ItemCompleted? then [ds[i].event.item] else []
  {
    assert ds[..i + 1] == ds[..i] + [ds[i]];
    CompletedAppend(ds[..i], ds[i]);
  }

  method Run(ds: seq<Delivery>) returns (r: RunResult)
    ensures r == ResultOf(ds)
  {
    var items: seq<ThreadItem> := [];
    var finalAnswer: Option<string>, fallback: Option<string> := None, None;
    var i := 0;
    while i < |ds| && !Stops(ds[i])
      invariant i <= FirstStop(ds)
      invariant items == CompletedItems(ds[..i])
      invariant finalAnswer == LastAgentText(items, true) && fallback == LastAgentText(items, false)
    {
      NextCompleted(ds, i);
      if ds[i].event.ItemCompleted? {
        var item := ds[i].event.item;
        finalAnswer, fallback := UpdateFinalResponseCandidates(item, finalAnswer, fallback, items);
        items := items + [item];
      }
      i := i + 1;
    }
    assert i == FirstStop(ds);
    if i == |ds| || ds[i].ClosedError? { return TransportGone; }
    var e := ds[i].event;
    r := if e.TurnCompleted? then Finished(items, GetOr(Or(finalAnswer, fallback), ""), e.usage)
        else TurnError(e.message);
  }

  predicate Fails(s: Signal, t: Target) {
    s.Notified? && s.n.Failure? && Concerns(s.n, t)
  }

  predicate SomeFailure(ss: seq<Signal>, t: Target) {
    exists i :: 0 <= i < |ss| && Fails(ss[i], t)
  }

  predicate SomeStop(ds: seq<Delivery>) {
    exists i :: 0 <= i < |ds| && Stops(ds[i])
  }

  lemma SomeStopAppend(ds: seq<Delivery>, es: seq<Delivery>)
    ensures SomeStop(ds + es) <==> SomeStop(ds) || SomeStop(es)
  {
    var all := ds + es;
    if i :| 0 <= i < |ds| && Stops(ds[i]) { assert Stops(all[i]); }
    if i :| 0 <= i < |es| && Stops(es[i]) { assert Stops(all[|ds| + i]); }
    if i :| 0 <= i < |all| && Stops(all[i]) {
      if i >= |ds| { assert Stops(es[i - |ds|]); } else { assert Stops(ds[i]); }
    }
  }

  lemma EmittedStopIff(s: Signal, t: Target)
    ensures SomeStop(Emitted(s, t)) <==> Fails(s, t)
  {
    if Fails(s, t) { assert Stops(Emitted(s, t)[0]); }
  }

  lemma {:induction false} NoStopWithoutFailure(ss: seq<Signal>, t: Target)
    ensures SomeStop(FilterMap(ss, t)) <==> SomeFailure(ss, t)
  {
    if ss != [] {
      var n := |ss| - 1;
      NoStopWithoutFailure(ss[..n], t);
      SomeStopAppend(FilterMap(ss[..n], t), Emitted(ss[n], t));
      EmittedStopIff(ss[n], t);
      if i :| 0 <= i < n && Fails(ss[..n][i], t) { assert Fails(ss[i], t); }
      if i :| 0 <= i < n && Fails(ss[i], t) { assert Fails(ss[..n][i], t); }
    }
  }

  /** A turn run over the pump finishes exactly when its first terminal signal
      is a completed turn whose status does not spell "failed" in letters of
      either case, and no error notification about it came earlier. */
  lemma RunFinishesIff(ss: seq<Signal>, t: Target)
    ensures var n := FirstTerminal(ss, t);
      ResultOf(TurnOutput(ss, t)).Finished? <==>
        && n < |ss| && ss[n].Notified? && !MeansFailed(ss[n].n.status)
        && !exists i :: 0 <= i < n && Fails(ss[i], t)
  {
    var n := FirstTerminal(ss, t);
    if n < |ss| && ss[n].Notified? { SaysFailedIff(ss[n].n.status); }
    if SomeFailure(ss[..n], t) {
      var j :| 0 <= j < n && Fails(ss[..n][j], t);
      assert Fails(ss[j], t);
      FailureFinishesNothing(ss, t);
    } else {
      forall i | 0 <= i < n ensures !Fails(ss[i], t) {
        assert ss[..n][i] == ss[i];
      }
      QuietFinishesIff(ss, t);
    }
  }

  lemma FailureFinishesNothing(ss: seq<Signal>, t: Target)
    requires SomeFailure(ss[..FirstTerminal(ss, t)], t)
    ensures !ResultOf(TurnOutput(ss, t)).Finished?
  {
    var n, out := FirstTerminal(ss, t), TurnOutput(ss, t);
    var front, k := FilterMap(ss[..n], t), FirstStop(out);
    NoStopWithoutFailure(ss[..n], t);
    FilterMapNeverEnds(ss[..n], t);
    var i :| 0 <= i < |front| && Stops(front[i]);
    assert out[..|front|] == front;
    assert k <= i by { assert Stops(out[i]); }
    assert out[k] == front[k];
  }

  lemma QuietFinishesIff(ss: seq<Signal>, t: Target)
    requires !SomeFailure(ss[..FirstTerminal(ss, t)], t)
    ensures
      var n := FirstTerminal(ss, t);
      ResultOf(TurnOutput(ss, t)).Finished? <==> n < |ss| && ss[n].Notified? && !SaysFailed(ss[n].n.status)
  {
    var n, out := FirstTerminal(ss, t), TurnOutput(ss, t);
    var front, k := FilterMap(ss[..n], t), FirstStop(out);
    NoStopWithoutFailure(ss[..n], t);
    assert out[..|front|] == front;
    assert forall i :: 0 <= i < |front| ==> out[i] == front[i] && !Stops(front[i]);
    if n < |ss| {
      assert out[|front|] == Ending(ss[n], LastUsage(ss[..n], t)) && Stops(out[|front|]);
    }
  }

  // ----- what a run gives

  predicate IsAgentText(item: ThreadItem, finalAnswer: bool) {
    item.AgentMessage? && item.finalAnswer == finalAnswer
  }

  /** Item `i` is the last agent message that is, or is not, a final answer. */
  predicate LastAt(items: seq<ThreadItem>, finalAnswer: bool, i: nat) {
    && i < |items| && IsAgentText(items[i], finalAnswer)
    && forall j :: i < j < |items| ==> !IsAgentText(items[j], finalAnswer)
  }

  lemma {:induction false} LastTextAt(items: seq<ThreadItem>, finalAnswer: bool, i: nat)
    requires LastAt(items, finalAnswer, i)
    ensures LastAgentText(items, finalAnswer) == Some(items[i].text)
  {
    if i < |items| - 1 { LastTextAt(items[..|items| - 1], finalAnswer, i); }
  }

  lemma {:induction false} NoText(items: seq<ThreadItem>, finalAnswer: bool)
    requires forall i :: 0 <= i < |items| ==> !IsAgentText(items[i], finalAnswer)
    ensures LastAgentText(items, finalAnswer) == None
  {
    if items != [] { NoText(items[..|items| - 1], finalAnswer); }
  }

  /** The final response is the text of the last final answer; without one,
      that of the last agent message; without any, empty. */
  lemma FinalResponseIs(items: seq<ThreadItem>, i: nat)
    ensures LastAt(items, true, i) ==> FinalResponse(items) == items[i].text
    ensures (forall j :: 0 <= j < |items| ==> !IsAgentText(items[j], true)) && LastAt(items, false, i) ==>
              FinalResponse(items) == items[i].text
    ensures (forall j :: 0 <= j < |items| ==> !items[j].AgentMessage?) ==> FinalResponse(items) == ""
  {
    if LastAt(items, true, i) { LastTextAt(items, true, i); }
    if forall j :: 0 <= j < |items| ==> !IsAgentText(items[j], true) {
      NoText(items, true);
      if LastAt(items, false, i) { LastTextAt(items, false, i); }
    }
    if forall j :: 0 <= j < |items| ==> !items[j].AgentMessage? {
      NoText(items, true);
      NoText(items, false);
    }
  }

  /** Delivery `n` is the first that says how the turn ended, or that there was
      an error, or there is none. */
  predicate EndsAt(ds: seq<Delivery>, n: nat) {
    && n <= |ds|
    && (forall i :: 0 <= i < n ==>
          ds[i].Event? && !ds[i].event.TurnCompleted? && !ds[i].event.TurnFailed? && !ds[i].event.ErrorEvent?)
    && (n < |ds| ==>
          ds[n].ClosedError? || ds[n].event.TurnCompleted? || ds[n].event.TurnFailed? || ds[n].event.ErrorEvent?)
  }

  lemma FirstStopIs(ds: seq<Delivery>, n: nat)
    requires EndsAt(ds, n)
    ensures FirstStop(ds) == n
  {
    var k := FirstStop(ds);
    assert k <= n && n <= k;
  }

  /** A run ends with the first such delivery: with the items completed before
      it and its usage if the turn is complete, with its message if the turn
      failed or there was an error, else because the transport is gone. */
  lemma RunEndsWith(ds: seq<Delivery>, n: nat)
    requires EndsAt(ds, n)
    ensures
      if n == |ds| || ds[n].ClosedError? then ResultOf(ds) == TransportGone
      else
        match ds[n].event
        case TurnCompleted(usage) =>
          var items := CompletedItems(ds[..n]);
          ResultOf(ds) == Finished(items, FinalResponse(items), usage)
        case TurnFailed(message) => ResultOf(ds) == TurnError(message)
        case ErrorEvent(message) => ResultOf(ds) == TurnError(message)
        case _ => false
  {
    FirstStopIs(ds, n);
  }

  /** The completed items are those of the completion events, each in the place
      that the number of such events before it says. */
  lemma {:induction false} CompletedAt(ds: seq<Delivery>, i: nat)
    requires i < |ds| && ds[i].Event? && ds[i].event.ItemCompleted?
    ensures
      var k := |CompletedItems(ds[..i])|;
      k < |CompletedItems(ds)| && CompletedItems(ds)[k] == ds[i].event.item
  {
    if i < |ds| - 1 {
      CompletedAt(ds[..|ds| - 1], i);
      assert ds[..|ds| - 1][..i] == ds[..i];
    }
  }
}
