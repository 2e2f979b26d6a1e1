/** `pump_turn_events`: one turn's events out of the shared broadcast stream. */
module TurnPump {
  import opened Options
  import opened Sequences
  import opened Json
  import opened Threads

  type Extra = map<string, Json>

  datatype Delta = Delta(itemId: Option<string>, delta: Option<string>, text: Option<string>, extra: Extra)

  /** The notifications the pump looks at. `TurnDone` carries the fields of
      the turn inside the notification, `TokenUsage` the thread id the payload
      type lifts out of its extra members. */
  datatype Notice =
    | Started(item: Json, extra: Extra)
    | Completed(item: Json, extra: Extra)
    | AgentDelta(delta: Delta)
    | PlanDelta(delta: Delta)
    | ReasoningDelta(delta: Delta)
    | TurnDone(turnId: string, status: Option<string>, error: Option<string>, extra: Extra)
    | TokenUsage(threadId: Option<string>, usage: Option<Json>, extra: Extra)
    | Failure(message: string, extra: Extra)
    | OtherNotice

  /** What `recv()` on the broadcast receiver yields. */
  datatype Signal = Notified(n: Notice) | ServerRequested | TransportClosed | Lagged | ChannelClosed

  /** Which turn the pump serves, and how items are parsed. */
  datatype Target = Target(thread: string, turn: string, parse: Json -> ThreadItem)

  predicate Names(extra: Extra, key: string, id: string) {
    var v := GetStr(extra, key);
    v.Some? ==> v.value == id
  }

  /** `matches_target_from_extra`: an id that is absent, or not a string,
      matches every target. */
  predicate Matches(extra: Extra, t: Target) {
    Names(extra, "threadId", t.thread) && Names(extra, "turnId", t.turn)
  }

  /** `parse_usage_from_value` */
  function ParseUsage(v: Json): Option<Usage> {
    if !v.Obj? then None
    else if "last" in v.fields then ParseUsage(v.fields["last"])
    else
      var input, output := GetI64(v.fields, "inputTokens"), GetI64(v.fields, "outputTokens");
      if input.None? || output.None? then None
      else Some(Usage(input.value, GetOr(GetI64(v.fields, "cachedInputTokens"), 0), output.value))
  }

  function UsageAt(extra: Extra, key: string): Option<Usage> {
    if key in extra then ParseUsage(extra[key]) else None
  }

  /** `parse_usage_from_turn_extra` */
  function TurnUsage(extra: Extra): Option<Usage> {
    Or(UsageAt(extra, "usage"), UsageAt(extra, "tokenUsage"))
  }

  /** What a token-usage notification sets `latest_usage` to. */
  function NoticeUsage(usage: Option<Json>, extra: Extra): Option<Usage> {
    Or(if usage.Some? then ParseUsage(usage.value) else None, UsageAt(extra, "tokenUsage"))
  }

  function DeltaText(d: Delta): string {
    GetOr(Or(d.delta, d.text), "")
  }

  function DeltaItem(n: Notice): ThreadItem
    requires n.AgentDelta? || n.PlanDelta? || n.ReasoningDelta?
  {
    var id, text := GetOr(n.delta.itemId, ""), DeltaText(n.delta);
    match n
    case AgentDelta(_) => AgentMessage(id, text, false)
    case PlanDelta(_) => Plan(id, text)
    case ReasoningDelta(_) => Reasoning(id, text)
  }

  function Lower(c: char): char {
    if 'A' <= c <= 'Z' then (c as int + 32) as char else c
  }

  /** `to_ascii_lowercase` */
  function AsciiLower(s: string): string {
    seq(|s|, i requires 0 <= i < |s| => Lower(s[i]))
  }

  predicate SaysFailed(status: Option<string>) {
    AsciiLower(GetOr(status, "")) == "failed"
  }

  /** The notification is about the target, as far as the pump can tell. */
  predicate Concerns(n: Notice, t: Target) {
    match n
    case Started(_, extra) => Matches(extra, t)
    case Completed(_, extra) => Matches(extra, t)
    case AgentDelta(d) => Matches(d.extra, t)
    case PlanDelta(d) => Matches(d.extra, t)
    case ReasoningDelta(d) => Matches(d.extra, t)
    case TurnDone(turnId, _, _, extra) => turnId == t.turn && Matches(extra, t)
    case TokenUsage(threadId, _, extra) => (threadId.Some? ==> threadId.value == t.thread) && Matches(extra, t)
    case Failure(_, extra) => Matches(extra, t)
    case OtherNotice => false
  }

  predicate Terminal(s: Signal, t: Target) {
    s.TransportClosed? || s.ChannelClosed? || (s.Notified? && s.n.TurnDone? && Concerns(s.n, t))
  }

  /** What a signal that does not end the turn sends on. */
  function Emitted(s: Signal, t: Target): seq<Delivery> {
    if !s.Notified? || !Concerns(s.n, t) then []
    else
      match s.n
      case Started(item, _) => [Event(ItemStarted(t.parse(item)))]
      case Completed(item, _) => [Event(ItemCompleted(t.parse(item)))]
      case AgentDelta(d) => if DeltaText(d) == "" then [] else [Event(ItemUpdated(DeltaItem(s.n)))]
      case PlanDelta(d) => if DeltaText(d) == "" then [] else [Event(ItemUpdated(DeltaItem(s.n)))]
      case ReasoningDelta(d) => if DeltaText(d) == "" then [] else [Event(ItemUpdated(DeltaItem(s.n)))]
      case Failure(message, _) => [Event(ErrorEvent(message))]
      case _ => []
  }

  /** What ends the turn. */
  function Ending(s: Signal, latest: Option<Usage>): Delivery {
    if s.Notified? && s.n.TurnDone? then
      if SaysFailed(s.n.status) then Event(TurnFailed(GetOr(s.n.error, "turn failed")))
      else Event(TurnCompleted(Or(TurnUsage(s.n.extra), latest)))
    else ClosedError
  }

  predicate SetsUsage(s: Signal, t: Target) {
    s.Notified? && s.n.TokenUsage? && Concerns(s.n, t)
  }

  // ----- the batch view of a whole stream

  function FirstTerminal(ss: seq<Signal>, t: Target): (n: nat)
    ensures n <= |ss|
    ensures forall i :: 0 <= i < n ==> !Terminal(ss[i], t)
    ensures n < |ss| ==> Terminal(ss[n], t)
  {
    if ss == [] || Terminal(ss[0], t) then 0 else 1 + FirstTerminal(ss[1..], t)
  }

  function FilterMap(ss: seq<Signal>, t: Target): seq<Delivery> {
    if ss == [] then [] else FilterMap(ss[..|ss| - 1], t) + Emitted(ss[|ss| - 1], t)
  }

  /** The last matching token-usage report, even if it does not parse. */
  function LastUsage(ss: seq<Signal>, t: Target): Option<Usage> {
    if ss == [] then None
    else
      var last := ss[|ss| - 1];
      if SetsUsage(last, t) then NoticeUsage(last.n.usage, last.n.extra) else LastUsage(ss[..|ss| - 1], t)
  }

  /** A turn's output: the filtered stream up to the first terminal signal,
      and then what that signal says. */
  function TurnOutput(ss: seq<Signal>, t: Target): seq<Delivery> {
    var n := FirstTerminal(ss, t);
    FilterMap(ss[..n], t) + if n < |ss| then [Ending(ss[n], LastUsage(ss[..n], t))] else []
  }

  lemma FilterMapAppend(ss: seq<Signal>, s: Signal, t: Target)
    ensures FilterMap(ss + [s], t) == FilterMap(ss, t) + Emitted(s, t)
  {
    assert (ss + [s])[..|ss|] == ss;
  }

  /** The turn is over within these signals. */
  predicate Over(ss: seq<Signal>, t: Target) {
    FirstTerminal(ss, t) < |ss|
  }

  lemma FirstTerminalIs(ss: seq<Signal>, t: Target, n: nat)
    requires n <= |ss| && (forall i :: 0 <= i < n ==> !Terminal(ss[i], t)) && (n < |ss| ==> Terminal(ss[n], t))
    ensures FirstTerminal(ss, t) == n
  {
    var k := FirstTerminal(ss, t);
  }

  /** What one more signal adds to the output. */
  function Added(ss: seq<Signal>, s: Signal, t: Target): seq<Delivery> {
    if Over(ss, t) then [] else if Terminal(s, t) then [Ending(s, LastUsage(ss, t))] else Emitted(s, t)
  }

  lemma ClosedAppend(ss: seq<Signal>, s: Signal, t: Target)
    requires Over(ss, t) || Terminal(s, t)
    ensures TurnOutput(ss + [s], t) == TurnOutput(ss, t) + Added(ss, s, t) && Over(ss + [s], t)
  {
    var n, rr := FirstTerminal(ss, t), ss + [s];
    assert forall i :: 0 <= i < |ss| ==> rr[i] == ss[i];
    FirstTerminalIs(rr, t, n);
    assert rr[..n] == ss[..n];
  }

  lemma OpenAppend(ss: seq<Signal>, s: Signal, t: Target)
    requires !Over(ss, t) && !Terminal(s, t)
    ensures TurnOutput(ss + [s], t) == TurnOutput(ss, t) + Added(ss, s, t) && !Over(ss + [s], t)
  {
    var rr := ss + [s];
    assert forall i :: 0 <= i < |ss| ==> rr[i] == ss[i];
    FirstTerminalIs(rr, t, |rr|);
    assert rr[..|rr|] == rr && ss[..|ss|] == ss;
    FilterMapAppend(ss, s, t);
  }

  lemma OutputAppend(ss: seq<Signal>, s: Signal, t: Target)
    ensures TurnOutput(ss + [s], t) == TurnOutput(ss, t) + Added(ss, s, t)
    ensures Over(ss + [s], t) <==> Over(ss, t) || Terminal(s, t)
  {
    if Over(ss, t) || Terminal(s, t) {
      ClosedAppend(ss, s, t);
    } else {
      OpenAppend(ss, s, t);
    }
  }

  lemma {:induction false} OutputGrows(ss: seq<Signal>, more: seq<Signal>, t: Target) returns (rest: seq<Delivery>)
    ensures TurnOutput(ss + more, t) == TurnOutput(ss, t) + rest
    ensures Over(ss, t) ==> Over(ss + more, t) && rest == []
    decreases |more|
  {
    if more == [] {
      rest := [];
      assert ss + more == ss;
    } else {
      var init, s := more[..|more| - 1], more[|more| - 1];
      var front := OutputGrows(ss, init, t);
      assert more == init + [s];
      Regroup(ss, init, [s]);
      AddedMore(ss + init, s, t, TurnOutput(ss, t), front);
      rest := front + Added(ss + init, s, t);
    }
  }

  lemma AddedMore(ss: seq<Signal>, s: Signal, t: Target, out: seq<Delivery>, more: seq<Delivery>)
    requires TurnOutput(ss, t) == out + more
    ensures TurnOutput(ss + [s], t) == out + (more + Added(ss, s, t))
    ensures Over(ss, t) ==> Over(ss + [s], t) && Added(ss, s, t) == []
  {
    OutputAppend(ss, s, t);
    Regroup(out, more, Added(ss, s, t));
  }

  lemma LastUsageAppend(ss: seq<Signal>, s: Signal, t: Target)
    ensures LastUsage(ss + [s], t) == if SetsUsage(s, t) then NoticeUsage(s.n.usage, s.n.extra) else LastUsage(ss, t)
  {
    assert (ss + [s])[..|ss|] == ss;
  }

  /** What the pump needs to know about the signal it is at. */
  lemma NextOutput(ss: seq<Signal>, i: nat, t: Target, out: seq<Delivery>, send: seq<Delivery>)
    requires i < |ss| && !Over(ss[..i], t) && out == TurnOutput(ss[..i], t)
    requires send == if Terminal(ss[i], t) then [Ending(ss[i], LastUsage(ss[..i], t))] else Emitted(ss[i], t)
    ensures |send| <= 1 && TurnOutput(ss[..i + 1], t) == out + send
    ensures |out| + |send| <= |TurnOutput(ss, t)| && TurnOutput(ss, t)[..|out|] == out
    ensures if Terminal(ss[i], t) then TurnOutput(ss, t) == out + send else !Over(ss[..i + 1], t)
  {
    NextAdded(ss, i, t);
    OutputFits(ss, i, t);
    OutputFits(ss, i + 1, t);
  }

  lemma NextAdded(ss: seq<Signal>, i: nat, t: Target)
    requires i < |ss|
    ensures TurnOutput(ss[..i + 1], t) == TurnOutput(ss[..i], t) + Added(ss[..i], ss[i], t)
    ensures Over(ss[..i + 1], t) <==> Over(ss[..i], t) || Terminal(ss[i], t)
  {
    OutputAppend(ss[..i], ss[i], t);
    assert ss[..i + 1] == ss[..i] + [ss[i]];
  }

  lemma NextUsage(ss: seq<Signal>, i: nat, t: Target)
    requires i < |ss|
    ensures
      var latest := LastUsage(ss[..i], t);
      LastUsage(ss[..i + 1], t) == if SetsUsage(ss[i], t) then NoticeUsage(ss[i].n.usage, ss[i].n.extra) else latest
  {
    LastUsageAppend(ss[..i], ss[i], t);
    assert ss[..i + 1] == ss[..i] + [ss[i]];
  }

  lemma OutputFits(ss: seq<Signal>, i: nat, t: Target)
    requires i <= |ss|
    ensures |TurnOutput(ss[..i], t)| <= |TurnOutput(ss, t)|
    ensures TurnOutput(ss, t)[..|TurnOutput(ss[..i], t)|] == TurnOutput(ss[..i], t)
    ensures Over(ss[..i], t) ==> TurnOutput(ss, t) == TurnOutput(ss[..i], t)
  {
    assert ss == ss[..i] + ss[i..];
    var rest := OutputGrows(ss[..i], ss[i..], t);
  }

  /** The pump. `signals` is what the receiver yields, `accepts` how many
      deliveries the consumer takes before it goes away. A lagging receiver
      only skips; whatever was lost is not in `signals`. */
  method PumpTurnEvents(signals: seq<Signal>, t: Target, accepts: nat) returns (out: seq<Delivery>)
    ensures accepts >= |TurnOutput(signals, t)| ==> out == TurnOutput(signals, t)
    ensures accepts < |TurnOutput(signals, t)| ==> out == TurnOutput(signals, t)[..accepts]
  {
    out := [];
    var latest: Option<Usage> := None;
    var i := 0;
    while i < |signals|
      invariant 0 <= i <= |signals| && !Over(signals[..i], t)
      invariant out == TurnOutput(signals[..i], t) && |out| <= accepts
      invariant latest == LastUsage(signals[..i], t)
    {
      var s := signals[i];
      var send: seq<Delivery> := if Terminal(s, t) then [Ending(s, latest)] else Emitted(s, t);
      NextOutput(signals, i, t, out, send);
      if |send| == 1 {
        if |out| == accepts { return; }
        out := out + send;
      }
      if Terminal(s, t) { return; }
      NextUsage(signals, i, t);
      if SetsUsage(s, t) {
        latest := NoticeUsage(s.n.usage, s.n.extra);
      }
      i := i + 1;
    }
    assert signals[..i] == signals;
  }

  // ----- what the output is like

  predicate EndsTurn(d: Delivery) {
    d.ClosedError? || d.event.TurnCompleted? || d.event.TurnFailed?
  }

  lemma {:induction false} FilterMapNeverEnds(ss: seq<Signal>, t: Target)
    ensures forall i :: 0 <= i < |FilterMap(ss, t)| ==> !EndsTurn(FilterMap(ss, t)[i])
  {
    if ss != [] {
      FilterMapNeverEnds(ss[..|ss| - 1], t);
    }
  }

  /** A terminal delivery occurs at most once, and last; it occurs exactly
      when the stream has a terminal signal. */
  lemma TerminalIsLastAndOnce(ss: seq<Signal>, t: Target)
    ensures var out := TurnOutput(ss, t);
      && (forall i :: 0 <= i < |out| && EndsTurn(out[i]) ==> i == |out| - 1)
      && ((exists i :: 0 <= i < |ss| && Terminal(ss[i], t)) <==> out != [] && EndsTurn(out[|out| - 1]))
  {
    var n := FirstTerminal(ss, t);
    FilterMapNeverEnds(ss[..n], t);
    if n < |ss| { assert Terminal(ss[n], t); }
  }

  lemma {:induction false} LastUsageIsLast(ss: seq<Signal>, t: Target, i: nat)
    requires i < |ss| && SetsUsage(ss[i], t)
    requires forall j :: i < j < |ss| ==> !SetsUsage(ss[j], t)
    ensures LastUsage(ss, t) == NoticeUsage(ss[i].n.usage, ss[i].n.extra)
  {
    if i < |ss| - 1 {
      LastUsageIsLast(ss[..|ss| - 1], t, i);
    }
  }

  lemma {:induction false} NoUsage(ss: seq<Signal>, t: Target)
    requires forall i :: 0 <= i < |ss| ==> !SetsUsage(ss[i], t)
    ensures LastUsage(ss, t) == None
  {
    if ss != [] {
      NoUsage(ss[..|ss| - 1], t);
    }
  }

  /** The last matching usage report before position `n`, if there is one. */
  predicate LastReport(ss: seq<Signal>, t: Target, n: nat, usage: Option<Usage>)
    requires n <= |ss|
  {
    || (usage == None && forall j :: 0 <= j < n ==> !SetsUsage(ss[j], t))
    || (exists i :: 0 <= i < n && SetsUsage(ss[i], t) && usage == NoticeUsage(ss[i].n.usage, ss[i].n.extra)
          && forall j :: i < j < n ==> !SetsUsage(ss[j], t))
  }

  /** Completion usage: the turn's own, else the last matching report before
      it, which counts even when it does not parse, else none. */
  lemma CompletionUsage(ss: seq<Signal>, t: Target, n: nat, usage: Option<Usage>)
    requires n == FirstTerminal(ss, t) < |ss| && ss[n].Notified? && ss[n].n.TurnDone? && !MeansFailed(ss[n].n.status)
    requires LastReport(ss, t, n, usage)
    ensures
      var out := TurnOutput(ss, t);
      out != [] && out[|out| - 1] == Event(TurnCompleted(Or(TurnUsage(ss[n].n.extra), usage)))
  {
    SaysFailedIff(ss[n].n.status);
    if i :| 0 <= i < n && SetsUsage(ss[i], t) && usage == NoticeUsage(ss[i].n.usage, ss[i].n.extra)
            && forall j :: i < j < n ==> !SetsUsage(ss[j], t) {
      LastUsageIsLast(ss[..n], t, i);
    } else {
      NoUsage(ss[..n], t);
    }
  }

  // ----- which completed turns failed

  /** "failed", in letters of either case. */
  predicate MeansFailed(status: Option<string>) {
    && status.Some? && |status.value| == 6
    && forall i :: 0 <= i < 6 ==> status.value[i] == "failed"[i] || status.value[i] == "FAILED"[i]
  }

  /** A lower-case letter comes from itself or its capital, anything else from
      itself. */
  lemma LowerIff(c: char, d: char)
    ensures Lower(c) == d <==> (c == d && !('A' <= c <= 'Z')) || ('a' <= d <= 'z' && c as int == d as int - 32)
  {
    if Lower(c) == d && 'A' <= c <= 'Z' { assert d as int == c as int + 32; }
    if 'a' <= d <= 'z' && c as int == d as int - 32 { assert 'A' <= c <= 'Z'; assert Lower(c) as int == d as int; }
  }

  lemma SaysFailedIff(status: Option<string>)
    ensures SaysFailed(status) <==> MeansFailed(status)
  {
    var v := GetOr(status, "");
    if |v| == 6 {
      forall i | 0 <= i < 6
        ensures AsciiLower(v)[i] == "failed"[i] <==> v[i] == "failed"[i] || v[i] == "FAILED"[i]
      {
        LowerIff(v[i], "failed"[i]);
      }
    }
    assert |AsciiLower(v)| == |v|;
  }

  /** A completed turn that ends the stream: the last delivery says the turn
      failed if and only if its status means so, with the turn's own error
      message or a fixed one; otherwise it says the turn is complete. */
  lemma TurnFailsIff(ss: seq<Signal>, t: Target, n: nat)
    requires n == FirstTerminal(ss, t) < |ss| && ss[n].Notified?
    ensures TurnOutput(ss, t) != []
    ensures
      var last := TurnOutput(ss, t)[|TurnOutput(ss, t)| - 1];
      if MeansFailed(ss[n].n.status) then
        last == Event(TurnFailed(match ss[n].n.error case Some(message) => message case None => "turn failed"))
      else last.Event? && last.event.TurnCompleted?
  {
    SaysFailedIff(ss[n].n.status);
  }

  /** A stream that ends otherwise: the consumer is told that the transport is
      closed. */
  lemma ClosedIsReported(ss: seq<Signal>, t: Target, n: nat)
    requires n == FirstTerminal(ss, t) < |ss| && !ss[n].Notified?
    ensures
      var out := TurnOutput(ss, t);
      out != [] && out[|out| - 1] == ClosedError && (ss[n] == TransportClosed || ss[n] == ChannelClosed)
  {
  }

  // ----- what usage is read from a value

  /** The innermost of the values under `last`. */
  function Innermost(v: Json): Json {
    if v.Obj? && "last" in v.fields then Innermost(v.fields["last"]) else v
  }

  /** The value has the counts under their names; no cached count is 0. */
  predicate Counts(v: Json, u: Usage) {
    && v.Obj? && FitsI64(u.input) && FitsI64(u.output)
    && Get(v.fields, "inputTokens") == Some(Int(u.input))
    && Get(v.fields, "outputTokens") == Some(Int(u.output))
    && u.cached == match Get(v.fields, "cachedInputTokens")
                   case Some(Int(n)) => if FitsI64(n) then n else 0
                   case _ => 0
  }

  lemma {:induction false} UsageIsRead(v: Json, u: Usage)
    ensures ParseUsage(v) == Some(u) <==> Counts(Innermost(v), u)
    decreases v
  {
    if v.Obj? && "last" in v.fields { UsageIsRead(v.fields["last"], u); }
  }

  /** The first of two members from which usage can be read. */
  ghost predicate FirstUsage(first: Option<Json>, second: Option<Json>, usage: Option<Usage>) {
    match usage
    case Some(u) =>
      || (first.Some? && Counts(Innermost(first.value), u))
      || (second.Some? && Counts(Innermost(second.value), u)
            && (first.Some? ==> forall w :: !Counts(Innermost(first.value), w)))
    case None =>
      && (first.Some? ==> forall w :: !Counts(Innermost(first.value), w))
      && (second.Some? ==> forall w :: !Counts(Innermost(second.value), w))
  }

  lemma FirstUsageIs(first: Option<Json>, second: Option<Json>)
    ensures
      var parsed := if first.Some? then ParseUsage(first.value) else None;
      FirstUsage(first, second, Or(parsed, if second.Some? then ParseUsage(second.value) else None))
  {
    if first.Some? { ReadOrNot(first.value); }
    if second.Some? { ReadOrNot(second.value); }
  }

  lemma ReadOrNot(v: Json)
    ensures
      match ParseUsage(v)
      case Some(u) => Counts(Innermost(v), u)
      case None => forall w :: !Counts(Innermost(v), w)
  {
    if ParseUsage(v).Some? {
      UsageIsRead(v, ParseUsage(v).value);
    } else {
      forall w ensures !Counts(Innermost(v), w) { UsageIsRead(v, w); }
    }
  }

  /** A turn's own usage is looked for under `usage`, then under `tokenUsage`;
      a report's in its usage member, then under `tokenUsage`. */
  lemma UsageMembers(extra: Extra, usage: Option<Json>)
    ensures FirstUsage(Get(extra, "usage"), Get(extra, "tokenUsage"), TurnUsage(extra))
    ensures FirstUsage(usage, Get(extra, "tokenUsage"), NoticeUsage(usage, extra))
  {
    FirstUsageIs(Get(extra, "usage"), Get(extra, "tokenUsage"));
    FirstUsageIs(usage, Get(extra, "tokenUsage"));
  }

  // ----- isolation of turns

  /** The pump acts on the signal. */
  predicate Heeds(s: Signal, t: Target) {
    && s.Notified? && Concerns(s.n, t)
    && (s.n.AgentDelta? || s.n.PlanDelta? || s.n.ReasoningDelta? ==> DeltaText(s.n.delta) != "")
  }

  lemma HeedsIff(s: Signal, t: Target)
    requires s.Notified?
    ensures Heeds(s, t) <==> Terminal(s, t) || Emitted(s, t) != [] || SetsUsage(s, t)
  {
  }

  /** `mm` is `ss` with `fs` merged into it, both in their own order. */
  predicate Merge(ss: seq<Signal>, fs: seq<Signal>, mm: seq<Signal>) {
    if mm == [] then ss == [] && fs == []
    else
      var init, last := mm[..|mm| - 1], mm[|mm| - 1];
      || (ss != [] && ss[|ss| - 1] == last && Merge(ss[..|ss| - 1], fs, init))
      || (fs != [] && fs[|fs| - 1] == last && Merge(ss, fs[..|fs| - 1], init))
  }

  /** Two streams leave the pump alike. */
  predicate Alike(ss: seq<Signal>, rr: seq<Signal>, t: Target) {
    TurnOutput(ss, t) == TurnOutput(rr, t) && LastUsage(ss, t) == LastUsage(rr, t) && Over(ss, t) == Over(rr, t)
  }

  lemma AlikeAfterBoth(ss: seq<Signal>, rr: seq<Signal>, s: Signal, t: Target)
    requires Alike(ss, rr, t)
    ensures Alike(ss + [s], rr + [s], t)
  {
    OutputAppend(ss, s, t);
    OutputAppend(rr, s, t);
    LastUsageAppend(ss, s, t);
    LastUsageAppend(rr, s, t);
  }

  lemma AlikeAfterUnheeded(ss: seq<Signal>, rr: seq<Signal>, s: Signal, t: Target)
    requires Alike(ss, rr, t) && s.Notified? && !Heeds(s, t)
    ensures Alike(ss + [s], rr, t)
  {
    HeedsIff(s, t);
    OutputAppend(ss, s, t);
    LastUsageAppend(ss, s, t);
  }

  lemma {:induction false} MergeIsAlike(ss: seq<Signal>, fs: seq<Signal>, mm: seq<Signal>, t: Target)
    requires Merge(ss, fs, mm) && forall i :: 0 <= i < |fs| ==> fs[i].Notified? && !Heeds(fs[i], t)
    ensures Alike(mm, ss, t)
    decreases |mm|
  {
    if mm != [] {
      var init, last := mm[..|mm| - 1], mm[|mm| - 1];
      if ss != [] && ss[|ss| - 1] == last && Merge(ss[..|ss| - 1], fs, init) {
        MergeIsAlike(ss[..|ss| - 1], fs, init, t);
        AlikeAtOwn(mm, ss, t);
      } else {
        MergeIsAlike(ss, fs[..|fs| - 1], init, t);
        AlikeAtUnheeded(mm, ss, t);
      }
    }
  }

  lemma AlikeAtOwn(mm: seq<Signal>, ss: seq<Signal>, t: Target)
    requires mm != [] && ss != [] && mm[|mm| - 1] == ss[|ss| - 1] && Alike(mm[..|mm| - 1], ss[..|ss| - 1], t)
    ensures Alike(mm, ss, t)
  {
    AlikeAfterBoth(mm[..|mm| - 1], ss[..|ss| - 1], ss[|ss| - 1], t);
    FrontAndLast(mm);
    FrontAndLast(ss);
  }

  lemma FrontAndLast(ss: seq<Signal>)
    requires ss != []
    ensures ss[..|ss| - 1] + [ss[|ss| - 1]] == ss
  {
  }

  lemma AlikeAtUnheeded(mm: seq<Signal>, ss: seq<Signal>, t: Target)
    requires mm != [] && mm[|mm| - 1].Notified? && !Heeds(mm[|mm| - 1], t) && Alike(mm[..|mm| - 1], ss, t)
    ensures Alike(mm, ss, t)
  {
    AlikeAfterUnheeded(mm[..|mm| - 1], ss, mm[|mm| - 1], t);
    FrontAndLast(mm);
  }

  lemma {:induction false} MergeOwn(ss: seq<Signal>, fs: seq<Signal>, mm: seq<Signal>, more: seq<Signal>)
    requires Merge(ss, fs, mm)
    ensures Merge(ss + more, fs, mm + more)
    decreases |more|
  {
    if more == [] {
      assert ss + more == ss && mm + more == mm;
    } else {
      var init := more[..|more| - 1];
      MergeOwn(ss, fs, mm, init);
      assert (ss + more)[..|ss + more| - 1] == ss + init && (mm + more)[..|mm + more| - 1] == mm + init;
    }
  }

  lemma {:induction false} MergeForeign(ss: seq<Signal>, fs: seq<Signal>, mm: seq<Signal>, more: seq<Signal>)
    requires Merge(ss, fs, mm)
    ensures Merge(ss, fs + more, mm + more)
    decreases |more|
  {
    if more == [] {
      assert fs + more == fs && mm + more == mm;
    } else {
      var init := more[..|more| - 1];
      MergeForeign(ss, fs, mm, init);
      assert (fs + more)[..|fs + more| - 1] == fs + init && (mm + more)[..|mm + more| - 1] == mm + init;
    }
  }

  /** A report of some usage, and a completed turn without its own. */
  function SomeReport(): Signal {
    Notified(TokenUsage(None, Some(Obj(map["inputTokens" := Int(1), "outputTokens" := Int(1)])), map[]))
  }

  function BareDone(t: Target): Signal {
    Notified(TurnDone(t.turn, None, None, map[]))
  }

  lemma ReportAndDone(t: Target)
    ensures SetsUsage(SomeReport(), t) && !Terminal(SomeReport(), t) && Emitted(SomeReport(), t) == []
    ensures NoticeUsage(SomeReport().n.usage, SomeReport().n.extra) == Some(Usage(1, 0, 1))
    ensures Terminal(BareDone(t), t)
    ensures forall latest :: Ending(BareDone(t), latest) == Event(TurnCompleted(latest))
  {
    var fields := map["inputTokens" := Int(1), "outputTokens" := Int(1)];
    assert "last" !in fields && "cachedInputTokens" !in fields;
    assert ParseUsage(Obj(fields)) == Some(Usage(1, 0, 1));
  }

  lemma QuietIsSilent(quiet: seq<Signal>, t: Target)
    requires forall i :: 0 <= i < |quiet| ==> quiet[i].Notified? && !Heeds(quiet[i], t)
    ensures Merge([], quiet, quiet) && Alike(quiet, [], t)
  {
    MergeForeign([], [], [], quiet);
    assert [] + quiet == quiet;
    MergeIsAlike([], quiet, quiet, t);
  }

  lemma StillSilent(quiet: seq<Signal>, own: seq<Signal>, t: Target)
    requires forall i :: 0 <= i < |quiet| ==> quiet[i].Notified? && !Heeds(quiet[i], t)
    requires own == [] || own == [SomeReport()]
    ensures !Over(quiet + own, t) && TurnOutput(quiet + own, t) == []
  {
    QuietIsSilent(quiet, t);
    if own == [] {
      assert quiet + own == quiet;
    } else {
      ReportAndDone(t);
      OutputAppend(quiet, SomeReport(), t);
    }
  }

  /** Signals that do nothing, then an own stream `own` that does not end the
      turn, then `f`, then a bare completed turn. */
  lemma UsageShows(quiet: seq<Signal>, own: seq<Signal>, f: Signal, t: Target)
    requires forall i :: 0 <= i < |quiet| ==> quiet[i].Notified? && !Heeds(quiet[i], t)
    requires own == [] || own == [SomeReport()]
    requires f.Notified? && f.n.TokenUsage? && SetsUsage(f, t)
    ensures
      var mm := quiet + own + [f] + [BareDone(t)];
      Over(mm, t) && TurnOutput(mm, t) == [Event(TurnCompleted(NoticeUsage(f.n.usage, f.n.extra)))]
  {
    StillSilent(quiet, own, t);
    ReportAdded(quiet + own, f, t);
    DoneAdded(quiet + own + [f], t);
  }

  lemma ReportAdded(ss: seq<Signal>, f: Signal, t: Target)
    requires !Over(ss, t) && TurnOutput(ss, t) == []
    requires f.Notified? && f.n.TokenUsage? && SetsUsage(f, t)
    ensures !Over(ss + [f], t) && TurnOutput(ss + [f], t) == []
    ensures LastUsage(ss + [f], t) == NoticeUsage(f.n.usage, f.n.extra)
  {
    OutputAppend(ss, f, t);
    LastUsageAppend(ss, f, t);
  }

  lemma DoneAdded(ss: seq<Signal>, t: Target)
    requires !Over(ss, t) && TurnOutput(ss, t) == []
    ensures Over(ss + [BareDone(t)], t)
    ensures TurnOutput(ss + [BareDone(t)], t) == [Event(TurnCompleted(LastUsage(ss, t)))]
  {
    ReportAndDone(t);
    OutputAppend(ss, BareDone(t), t);
  }

  /** The own stream of `UsageShows` alone. */
  lemma UsageAlone(own: seq<Signal>, t: Target)
    requires own == [] || own == [SomeReport()]
    ensures TurnOutput(own + [BareDone(t)], t)
         == [Event(TurnCompleted(if own == [] then None else Some(Usage(1, 0, 1))))]
  {
    ReportAndDone(t);
    if own != [] {
      OutputAppend([], SomeReport(), t);
      LastUsageAppend([], SomeReport(), t);
      assert [] + [SomeReport()] == own;
    }
    OutputAppend(own, BareDone(t), t);
  }

  /** The usage reported by `f` can show. */
  lemma ReportShows(quiet: seq<Signal>, f: Signal, rest: seq<Signal>, t: Target)
      returns (ss: seq<Signal>, mm: seq<Signal>)
    requires forall i :: 0 <= i < |quiet| ==> quiet[i].Notified? && !Heeds(quiet[i], t)
    requires f.Notified? && f.n.TokenUsage? && SetsUsage(f, t)
    ensures Merge(ss, quiet + [f] + rest, mm) && TurnOutput(mm, t) != TurnOutput(ss, t)
  {
    var own := if NoticeUsage(f.n.usage, f.n.extra).Some? then [] else [SomeReport()];
    var done := quiet + own + [f] + [BareDone(t)];
    ss, mm := own + [BareDone(t)], done + rest;
    QuietIsSilent(quiet, t);
    MergeOwn([], quiet, quiet, own);
    assert [] + own == own;
    MergeForeign(own, quiet, quiet + own, [f]);
    MergeOwn(own, quiet + [f], quiet + own + [f], [BareDone(t)]);
    MergeForeign(ss, quiet + [f], done, rest);
    UsageShows(quiet, own, f, t);
    UsageAlone(own, t);
    assert mm[..|done|] == done;
    OutputFits(mm, |done|, t);
  }

  /** What `f` sends on shows without any own stream. */
  lemma DeliveryShows(quiet: seq<Signal>, f: Signal, rest: seq<Signal>, t: Target)
    requires forall i :: 0 <= i < |quiet| ==> quiet[i].Notified? && !Heeds(quiet[i], t)
    requires Terminal(f, t) || Emitted(f, t) != []
    ensures var fs := quiet + [f] + rest; Merge([], fs, fs) && TurnOutput(fs, t) != TurnOutput([], t)
  {
    var fs := quiet + [f] + rest;
    QuietIsSilent(quiet, t);
    OutputAppend(quiet, f, t);
    MergeForeign([], [], [], fs);
    assert [] + fs == fs && fs[..|quiet| + 1] == quiet + [f];
    OutputFits(fs, |quiet| + 1, t);
  }

  /** However the own stream and the merge are chosen, the output is the same. */
  ghost predicate Isolated(fs: seq<Signal>, t: Target) {
    forall ss, mm :: Merge(ss, fs, mm) ==> TurnOutput(mm, t) == TurnOutput(ss, t)
  }

  lemma HeededShows(fs: seq<Signal>, t: Target)
    requires forall i :: 0 <= i < |fs| ==> fs[i].Notified?
    requires exists i :: 0 <= i < |fs| && Heeds(fs[i], t)
    ensures !Isolated(fs, t)
  {
    var j := FirstHeeded(fs, t);
    var quiet, f, rest := fs[..j], fs[j], fs[j + 1..];
    HeedsIff(f, t);
    assert fs == quiet + [f] + rest;
    if Terminal(f, t) || Emitted(f, t) != [] {
      DeliveryShows(quiet, f, rest, t);
    } else {
      var ss, mm := ReportShows(quiet, f, rest, t);
    }
  }

  /** Foreign notifications leave a turn alone, whatever the turn's own stream
      and however they are merged into it, if and only if the pump heeds none
      of them. */
  lemma IsolatedIff(fs: seq<Signal>, t: Target)
    requires forall i :: 0 <= i < |fs| ==> fs[i].Notified?
    ensures Isolated(fs, t) <==> forall i :: 0 <= i < |fs| ==> !Heeds(fs[i], t)
  {
    if exists i :: 0 <= i < |fs| && Heeds(fs[i], t) {
      HeededShows(fs, t);
    } else {
      forall ss, mm | Merge(ss, fs, mm) ensures TurnOutput(mm, t) == TurnOutput(ss, t) {
        MergeIsAlike(ss, fs, mm, t);
      }
    }
  }

  lemma {:induction false} FirstHeeded(fs: seq<Signal>, t: Target) returns (j: nat)
    requires exists i :: 0 <= i < |fs| && Heeds(fs[i], t)
    ensures j < |fs| && Heeds(fs[j], t) && forall i :: 0 <= i < j ==> !Heeds(fs[i], t)
  {
    j := 0;
    while !Heeds(fs[j], t)
      invariant j < |fs| && forall i :: 0 <= i < j ==> !Heeds(fs[i], t)
      decreases |fs| - j
    {
      j := j + 1;
    }
  }

  /** Among the extra members an id is given, as a string, that is not the
      target's. */
  predicate NamesOther(extra: Extra, t: Target) {
    || (GetStr(extra, "threadId").Some? && GetStr(extra, "threadId").value != t.thread)
    || (GetStr(extra, "turnId").Some? && GetStr(extra, "turnId").value != t.turn)
  }

  /** The text a delta brings: its `delta`, or else its `text`. */
  function Brought(d: Delta): string {
    match d.delta
    case Some(text) => text
    case None => match d.text { case Some(text) => text case None => "" }
  }

  function IdOf(d: Delta): string {
    match d.itemId case Some(id) => id case None => ""
  }

  /** What a consumer sees of a notification that does not end the turn: the
      event of its kind, unless its extra members name another thread or turn,
      and nothing for a delta without text. */
  function Seen(n: Notice, t: Target): seq<ThreadEvent> {
    match n
    case Started(item, extra) => if NamesOther(extra, t) then [] else [ItemStarted(t.parse(item))]
    case Completed(item, extra) => if NamesOther(extra, t) then [] else [ItemCompleted(t.parse(item))]
    case AgentDelta(d) =>
      if NamesOther(d.extra, t) || Brought(d) == "" then []
      else [ItemUpdated(AgentMessage(IdOf(d), Brought(d), false))]
    case PlanDelta(d) =>
      if NamesOther(d.extra, t) || Brought(d) == "" then [] else [ItemUpdated(Plan(IdOf(d), Brought(d)))]
    case ReasoningDelta(d) =>
      if NamesOther(d.extra, t) || Brought(d) == "" then [] else [ItemUpdated(Reasoning(IdOf(d), Brought(d)))]
    case Failure(message, extra) => if NamesOther(extra, t) then [] else [ErrorEvent(message)]
    case TurnDone(_, _, _, _) => []
    case TokenUsage(_, _, _) => []
    case OtherNotice => []
  }

  /** Anywhere in a stream that is still open, a notification that does not end
      it adds exactly what is seen of it. */
  lemma NoticeIsSeen(ss: seq<Signal>, n: Notice, t: Target)
    requires !Over(ss, t) && (n.TurnDone? ==> n.turnId != t.turn || NamesOther(n.extra, t))
    ensures !Over(ss + [Notified(n)], t)
    ensures
      var seen := Seen(n, t);
      && TurnOutput(ss + [Notified(n)], t)
         == TurnOutput(ss, t) + seq(|seen|, i requires 0 <= i < |seen| => Event(seen[i]))
  {
    OutputAppend(ss, Notified(n), t);
    var events := seq(|Seen(n, t)|, i requires 0 <= i < |Seen(n, t)| => Event(Seen(n, t)[i]));
    assert Added(ss, Notified(n), t) == events;
  }

  /** A notification leaves a turn alone, whatever the turn's own stream and
      wherever it is merged into it, exactly if it is of a kind the pump does
      not look at, its members name another thread or turn, or it is a delta
      without text. */
  lemma NoticeIgnoredIff(n: Notice, t: Target)
    ensures Isolated([Notified(n)], t) <==>
      match n
      case Started(_, extra) => NamesOther(extra, t)
      case Completed(_, extra) => NamesOther(extra, t)
      case AgentDelta(d) => NamesOther(d.extra, t) || Brought(d) == ""
      case PlanDelta(d) => NamesOther(d.extra, t) || Brought(d) == ""
      case ReasoningDelta(d) => NamesOther(d.extra, t) || Brought(d) == ""
      case TurnDone(turnId, _, _, extra) => turnId != t.turn || NamesOther(extra, t)
      case TokenUsage(threadId, _, extra) => (threadId.Some? && threadId.value != t.thread) || NamesOther(extra, t)
      case Failure(_, extra) => NamesOther(extra, t)
      case OtherNotice => true
  {
    IsolatedIff([Notified(n)], t);
    assert Heeds([Notified(n)][0], t) <==> Heeds(Notified(n), t);
  }

  /** A completed turn leaves a turn alone, whatever its stream, exactly if its
      id is another turn's, or its extra members name another thread or turn. */
  lemma TurnDoneIgnoredIff(done: Notice, t: Target)
    requires done.TurnDone?
    ensures Isolated([Notified(done)], t)
       <==> || done.turnId != t.turn
            || (GetStr(done.extra, "threadId").Some? && GetStr(done.extra, "threadId").value != t.thread)
            || (GetStr(done.extra, "turnId").Some? && GetStr(done.extra, "turnId").value != t.turn)
  {
    IsolatedIff([Notified(done)], t);
    assert Heeds([Notified(done)][0], t) <==> Concerns(done, t);
  }

  /** Anywhere in a stream that is still open: what a signal adds that is no
      notification, and which signals end the stream. */
  lemma SignalAdds(ss: seq<Signal>, s: Signal, t: Target)
    requires !Over(ss, t)
    ensures
      match s
      case TransportClosed => TurnOutput(ss + [s], t) == TurnOutput(ss, t) + [ClosedError]
      case ChannelClosed => TurnOutput(ss + [s], t) == TurnOutput(ss, t) + [ClosedError]
      case ServerRequested => TurnOutput(ss + [s], t) == TurnOutput(ss, t)
      case Lagged => TurnOutput(ss + [s], t) == TurnOutput(ss, t)
      case Notified(_) => true
    ensures Over(ss + [s], t) <==>
      match s
      case Notified(TurnDone(turnId, _, _, extra)) => turnId == t.turn && !NamesOther(extra, t)
      case Notified(_) => false
      case TransportClosed => true
      case ChannelClosed => true
      case _ => false
  {
    OutputAppend(ss, s, t);
    assert TurnOutput(ss, t) + [] == TurnOutput(ss, t);
  }

  /** Ids beside the turn object do not help: a completed turn that carries
      none in it ends the turn of the same id on any other thread. */
  lemma UnlabelledTurnEndsEveryThread(done: Notice, ss: seq<Signal>, t: Target)
    requires done.TurnDone? && done.turnId == t.turn && "threadId" !in done.extra && "turnId" !in done.extra
    requires !Over(ss, t)
    ensures
      var mm := [Notified(done)] + ss;
      Merge(ss, [Notified(done)], mm) && |TurnOutput(mm, t)| == 1 && TurnOutput(mm, t) != TurnOutput(ss, t)
  {
    var d := Notified(done);
    MergeForeign([], [], [], [d]);
    assert [] + [d] == [d] && [] + ss == ss && ([d] + ss)[..1] == [d];
    MergeOwn([], [d], [d], ss);
    DoneComesFirst(d, t);
    OutputFits([d] + ss, 1, t);
    OpenNeverEnds(ss, t);
  }

  lemma DoneComesFirst(d: Signal, t: Target)
    requires Terminal(d, t) && d.Notified?
    ensures Over([d], t) && |TurnOutput([d], t)| == 1 && EndsTurn(TurnOutput([d], t)[0])
  {
    OutputAppend([], d, t);
    assert [] + [d] == [d];
  }

  lemma OpenNeverEnds(ss: seq<Signal>, t: Target)
    requires !Over(ss, t)
    ensures forall i :: 0 <= i < |TurnOutput(ss, t)| ==> !EndsTurn(TurnOutput(ss, t)[i])
  {
    FilterMapNeverEnds(ss[..FirstTerminal(ss, t)], t);
  }

  // ----- streams of several turns

  /** Whose signal it is: one turn's, or everybody's. */
  datatype Owner = OfTurn(thread: string, turn: string) | Everybody

  datatype Tagged = Tagged(owner: Owner, signal: Signal)

  /** Among the extra members an id is given that is not the target's. */
  predicate NamesAnother(extra: Extra, thread: string, turn: string, t: Target) {
    || (thread != t.thread && GetStr(extra, "threadId") == Some(thread))
    || (turn != t.turn && GetStr(extra, "turnId") == Some(turn))
  }

  /** A notification of another turn carries one of the ids that tell it from
      the target, where the pump reads it. A completed turn always carries its
      turn id; a thread id is needed only if that is the target's. */
  predicate TellsApart(n: Notice, thread: string, turn: string, t: Target) {
    match n
    case Started(_, extra) => NamesAnother(extra, thread, turn, t)
    case Completed(_, extra) => NamesAnother(extra, thread, turn, t)
    case AgentDelta(d) => NamesAnother(d.extra, thread, turn, t)
    case PlanDelta(d) => NamesAnother(d.extra, thread, turn, t)
    case ReasoningDelta(d) => NamesAnother(d.extra, thread, turn, t)
    case TurnDone(turnId, _, _, extra) => turnId == turn && (turn != t.turn || NamesAnother(extra, thread, turn, t))
    case TokenUsage(threadId, _, extra) =>
      (thread != t.thread && threadId == Some(thread)) || NamesAnother(extra, thread, turn, t)
    case Failure(_, extra) => NamesAnother(extra, thread, turn, t)
    case OtherNotice => true
  }

  predicate Mine(e: Tagged, t: Target) {
    e.owner.Everybody? || e.owner == OfTurn(t.thread, t.turn)
  }

  predicate WellTagged(e: Tagged, t: Target) {
    match e.owner
    case OfTurn(thread, turn) => e.signal.Notified? && (Mine(e, t) || TellsApart(e.signal.n, thread, turn, t))
    case Everybody => true
  }

  function Signals(es: seq<Tagged>): seq<Signal> {
    seq(|es|, i requires 0 <= i < |es| => es[i].signal)
  }

  /** One turn's substream of a merged stream. */
  function Own(es: seq<Tagged>, t: Target): seq<Tagged> {
    if es == [] then []
    else
      var last := es[|es| - 1];
      Own(es[..|es| - 1], t) + if Mine(last, t) then [last] else []
  }

  /** Another turn's notification does nothing to this turn's pump. */
  lemma ForeignIsUnheeded(e: Tagged, t: Target)
    requires WellTagged(e, t) && !Mine(e, t)
    ensures e.signal.Notified? && !Heeds(e.signal, t)
  {
  }

  lemma SignalsAppend(es: seq<Tagged>, e: Tagged)
    ensures Signals(es + [e]) == Signals(es) + [e.signal]
  {
  }

  lemma OneMoreTagged(es: seq<Tagged>, e: Tagged, t: Target)
    requires Alike(Signals(es), Signals(Own(es, t)), t) && WellTagged(e, t)
    ensures Alike(Signals(es + [e]), Signals(Own(es + [e], t)), t)
  {
    assert (es + [e])[..|es|] == es;
    SignalsAppend(es, e);
    if Mine(e, t) {
      AlikeAfterBoth(Signals(es), Signals(Own(es, t)), e.signal, t);
      SignalsAppend(Own(es, t), e);
    } else {
      ForeignIsUnheeded(e, t);
      AlikeAfterUnheeded(Signals(es), Signals(Own(es, t)), e.signal, t);
      assert Own(es, t) + [] == Own(es, t);
    }
  }

  lemma {:induction false} OwnIsAlike(es: seq<Tagged>, t: Target)
    requires forall i :: 0 <= i < |es| ==> WellTagged(es[i], t)
    ensures Alike(Signals(es), Signals(Own(es, t)), t)
  {
    if es != [] {
      OwnIsAlike(es[..|es| - 1], t);
      LastTagged(es, t);
    }
  }

  lemma LastTagged(es: seq<Tagged>, t: Target)
    requires es != [] && WellTagged(es[|es| - 1], t)
    requires Alike(Signals(es[..|es| - 1]), Signals(Own(es[..|es| - 1], t)), t)
    ensures Alike(Signals(es), Signals(Own(es, t)), t)
  {
    var init, last := es[..|es| - 1], es[|es| - 1];
    assert es == init + [last];
    OneMoreTagged(init, last, t);
  }

  /** However the signals of several turns are interleaved, one turn's pump
      gives what it gives on that turn's own substream. */
  lemma TurnsAreIsolated(es: seq<Tagged>, t: Target)
    requires forall i :: 0 <= i < |es| ==> WellTagged(es[i], t)
    ensures TurnOutput(Signals(es), t) == TurnOutput(Signals(Own(es, t)), t)
  {
    OwnIsAlike(es, t);
  }
}
