/** `run_prompt`: one prompt of `luna chat`, from the turn's stream to the
    transcript (crates/luna/src/commands/chat.rs). */
module PromptRun {
  import opened Options
  import opened Sequences
  import opened Threads
  import opened TurnPump
  import opened TurnRun
  import opened Render
  import opened Transcript

  // ----- the loop

  /** What the loop in `run_prompt` meets: a delivery, or a key for an
      interrupt that fails. */
  datatype Happening = Delivered(d: Delivery) | InterruptFailed(error: string)

  predicate Halts(h: Happening) {
    h.Delivered? && Stops(h.d)
  }

  predicate GoesOn(hs: seq<Happening>) {
    forall i :: 0 <= i < |hs| ==> !Halts(hs[i])
  }

  function HaltFrom(hs: seq<Happening>, i: nat): (n: nat)
    requires i <= |hs|
    ensures i <= n <= |hs| && (n < |hs| ==> Halts(hs[n]))
    ensures forall j :: i <= j < n ==> !Halts(hs[j])
    decreases |hs| - i
  {
    if i == |hs| || Halts(hs[i]) then i else HaltFrom(hs, i + 1)
  }

  function FirstHalt(hs: seq<Happening>): (n: nat)
    ensures n <= |hs| && GoesOn(hs[..n]) && (n < |hs| ==> Halts(hs[n]))
  {
    HaltFrom(hs, 0)
  }

  function OpOf(h: Happening): ChatOp
    requires !Halts(h)
  {
    match h
    case Delivered(d) => Receive(d.event)
    case InterruptFailed(error) => Say(ErrorBlock, "could not interrupt turn: " + error)
  }

  function OpsOf(hs: seq<Happening>): (ops: seq<ChatOp>)
    requires GoesOn(hs)
    ensures |ops| == |hs| && forall i :: 0 <= i < |hs| ==> ops[i] == OpOf(hs[i])
  {
    seq(|hs|, i requires 0 <= i < |hs| => OpOf(hs[i]))
  }

  /** What happens to the transcript where the loop stops. */
  function Closing(hs: seq<Happening>, n: nat): seq<ChatOp>
    requires n <= |hs| && (n < |hs| ==> Halts(hs[n]))
  {
    if n == |hs| then [Say(ErrorBlock, "stream closed before turn completion")]
    else if hs[n].d.ClosedError? then []
    else
      [Receive(hs[n].d.event)] +
      match hs[n].d.event
      case TurnFailed(message) => [Say(ErrorBlock, "turn failed: " + message)]
      case ErrorEvent(message) => [Say(ErrorBlock, "stream error: " + message)]
      case _ => []
  }

  /** What the loop does to the chat. */
  function LoopOps(hs: seq<Happening>): seq<ChatOp> {
    OpsOf(hs[..FirstHalt(hs)]) + Closing(hs, FirstHalt(hs))
  }

  /** What `run_prompt` does to the chat: either the turn cannot be started, or
      its loop runs over `hs`. */
  function PromptOps(prompt: string, startError: Option<string>, hs: seq<Happening>): seq<ChatOp> {
    if startError.Some? then [Prompt(prompt), Say(ErrorBlock, "could not start turn: " + startError.value)]
    else [Prompt(prompt)] + LoopOps(hs)
  }

  /** `run_prompt`; false stands for the error of a stream that fails. */
  method RunPrompt(app: ChatApp, prompt: string, startError: Option<string>, hs: seq<Happening>, l: Layout)
    returns (ok: bool)
    modifies app, app.renderer
    ensures app.View() == ApplyAll(old(app.View()), PromptOps(prompt, startError, hs), l, app.mode)
    ensures ok <==> startError.Some? || FirstHalt(hs) == |hs| || !hs[FirstHalt(hs)].d.ClosedError?
  {
    ghost var start := app.View();
    app.SubmitUserMessage(prompt);
    ghost var ops := [Prompt(prompt)];
    ApplyLast(start, [], Prompt(prompt), l, app.mode);
    assert [] + [Prompt(prompt)] == ops;
    if startError.Some? {
      app.Append(ErrorBlock, "could not start turn: " + startError.value);
      ApplyLast(start, ops, Say(ErrorBlock, "could not start turn: " + startError.value), l, app.mode);
      return true;
    }
    ok := Loop(app, start, ops, hs, l);
  }

  /** The loop of `run_prompt`, after the operations `before`. */
  method Loop(app: ChatApp, ghost start: Chat, ghost before: seq<ChatOp>, hs: seq<Happening>, l: Layout)
    returns (ok: bool)
    requires app.View() == ApplyAll(start, before, l, app.mode)
    modifies app, app.renderer
    ensures app.View() == ApplyAll(start, before + LoopOps(hs), l, app.mode)
    ensures ok <==> FirstHalt(hs) == |hs| || !hs[FirstHalt(hs)].d.ClosedError?
  {
    var i := 0;
    assert before + OpsOf(hs[..0]) == before;
    while i < |hs| && !Halts(hs[i])
      invariant i <= |hs| && GoesOn(hs[..i]) && app.renderer == old(app.renderer)
      invariant app.View() == ApplyAll(start, before + OpsOf(hs[..i]), l, app.mode)
    {
      Meet(app, hs[i], l);
      ApplyLast(start, before + OpsOf(hs[..i]), OpOf(hs[i]), l, app.mode);
      OneMoreOp(before, hs, i);
      i := i + 1;
    }
    FirstHaltIs(hs, i);
    Close(app, start, before + OpsOf(hs[..i]), hs, i, l);
    Regroup(before, OpsOf(hs[..i]), Closing(hs, i));
    ok := i == |hs| || !hs[i].d.ClosedError?;
  }

  /** One round of the loop. */
  method Meet(app: ChatApp, h: Happening, l: Layout)
    requires !Halts(h)
    modifies app, app.renderer
    ensures app.View() == Apply(old(app.View()), OpOf(h), l, app.mode)
    ensures app.renderer == old(app.renderer)
  {
    match h {
      case Delivered(d) => app.ConsumeThreadEvent(d.event, l);
      case InterruptFailed(error) => app.Append(ErrorBlock, "could not interrupt turn: " + error);
    }
  }

  lemma FirstHaltIs(hs: seq<Happening>, n: nat)
    requires n <= |hs| && GoesOn(hs[..n]) && (n < |hs| ==> Halts(hs[n]))
    ensures FirstHalt(hs) == n
  {
    HaltsOnce(hs, n, FirstHalt(hs));
    HaltsOnce(hs, FirstHalt(hs), n);
  }

  lemma HaltsOnce(hs: seq<Happening>, n: nat, k: nat)
    requires n <= |hs| && k <= |hs| && GoesOn(hs[..n]) && (k < |hs| ==> Halts(hs[k]))
    ensures n <= k
  {
    assert forall i :: 0 <= i < n ==> hs[i] == hs[..n][i];
  }

  lemma OneMoreOp(before: seq<ChatOp>, hs: seq<Happening>, i: nat)
    requires i < |hs| && GoesOn(hs[..i]) && !Halts(hs[i])
    ensures GoesOn(hs[..i + 1])
    ensures before + OpsOf(hs[..i + 1]) == before + OpsOf(hs[..i]) + [OpOf(hs[i])]
  {
    assert forall j :: 0 <= j < i ==> hs[..i + 1][j] == hs[..i][j];
  }

  /** The last step of `run_prompt`: the stream has ended, failed, or holds a
      terminal event. */
  method Close(app: ChatApp, ghost start: Chat, ghost ops: seq<ChatOp>, hs: seq<Happening>, n: nat, l: Layout)
    requires n <= |hs| && (n < |hs| ==> Halts(hs[n]))
    requires app.View() == ApplyAll(start, ops, l, app.mode)
    modifies app, app.renderer
    ensures app.View() == ApplyAll(start, ops + Closing(hs, n), l, app.mode)
  {
    if n == |hs| {
      app.Append(ErrorBlock, "stream closed before turn completion");
      ApplyLast(start, ops, Say(ErrorBlock, "stream closed before turn completion"), l, app.mode);
    } else if hs[n].d.ClosedError? {
      assert ops + [] == ops;
    } else {
      CloseOn(app, start, ops, hs[n].d.event, l);
      ClosingOps(ops, hs, n);
    }
  }

  /** What the message of an event that is no completion is prefixed with. */
  function Complaint(e: ThreadEvent): seq<ChatOp> {
    match e
    case TurnFailed(message) => [Say(ErrorBlock, "turn failed: " + message)]
    case ErrorEvent(message) => [Say(ErrorBlock, "stream error: " + message)]
    case _ => []
  }

  method CloseOn(app: ChatApp, ghost start: Chat, ghost ops: seq<ChatOp>, e: ThreadEvent, l: Layout)
    requires app.View() == ApplyAll(start, ops, l, app.mode)
    modifies app, app.renderer
    ensures app.View() == ApplyAll(start, ops + [Receive(e)] + Complaint(e), l, app.mode)
  {
    app.ConsumeThreadEvent(e, l);
    ghost var all := ops + [Receive(e)];
    ApplyLast(start, ops, Receive(e), l, app.mode);
    if e.TurnFailed? {
      app.Append(ErrorBlock, "turn failed: " + e.message);
      ApplyLast(start, all, Say(ErrorBlock, "turn failed: " + e.message), l, app.mode);
    } else if e.ErrorEvent? {
      app.Append(ErrorBlock, "stream error: " + e.message);
      ApplyLast(start, all, Say(ErrorBlock, "stream error: " + e.message), l, app.mode);
    } else {
      assert all + [] == all;
    }
  }

  lemma ClosingOps(ops: seq<ChatOp>, hs: seq<Happening>, n: nat)
    requires n < |hs| && Halts(hs[n]) && hs[n].d.Event?
    ensures ops + Closing(hs, n) == ops + [Receive(hs[n].d.event)] + Complaint(hs[n].d.event)
  {
    Regroup(ops, [Receive(hs[n].d.event)], Complaint(hs[n].d.event));
  }

  // ----- what a prompt leaves behind, happening by happening

  predicate EndsTurn(e: ThreadEvent) {
    e.TurnCompleted? || e.TurnFailed? || e.ErrorEvent?
  }

  /** Happening `n` is the first that ends the loop, or there is none. */
  predicate LoopEndsAt(hs: seq<Happening>, n: nat) {
    && n <= |hs|
    && (forall i :: 0 <= i < n ==> hs[i].InterruptFailed? || (hs[i].d.Event? && !EndsTurn(hs[i].d.event)))
    && (n < |hs| ==> hs[n].Delivered? && (hs[n].d.ClosedError? || EndsTurn(hs[n].d.event)))
  }

  function WithError(c: Chat, message: string): Chat {
    c.(blocks := c.blocks + [Block(ErrorBlock, None, message)])
  }

  /** The chat after the prompt and the first `n` happenings. */
  function ChatAfter(c: Chat, prompt: string, hs: seq<Happening>, n: nat, l: Layout, mode: Mode): Chat
    requires n <= |hs|
  {
    if n == 0 then Chat(c.blocks + [Block(UserBlock, None, prompt)], {}, None, false)
    else
      var d := ChatAfter(c, prompt, hs, n - 1, l, mode);
      match hs[n - 1]
      case Delivered(Event(e)) => Consume(d, e, l, mode)
      case Delivered(ClosedError) => d
      case InterruptFailed(error) => WithError(d, "could not interrupt turn: " + error)
  }

  lemma {:induction false} ChatAfterOps(c: Chat, prompt: string, hs: seq<Happening>, n: nat, l: Layout, mode: Mode)
    requires n <= |hs| && GoesOn(hs[..n])
    ensures ApplyAll(c, [Prompt(prompt)] + OpsOf(hs[..n]), l, mode) == ChatAfter(c, prompt, hs, n, l, mode)
    decreases n
  {
    if n == 0 {
      ApplyLast(c, [], Prompt(prompt), l, mode);
      assert [Prompt(prompt)] + OpsOf(hs[..n]) == [] + [Prompt(prompt)];
    } else {
      Prefixes(hs, n - 1, n);
      assert GoesOn(hs[..n - 1]) && hs[n - 1] == hs[..n][n - 1];
      ChatAfterOps(c, prompt, hs, n - 1, l, mode);
      OneMoreOp([Prompt(prompt)], hs, n - 1);
      ApplyLast(c, [Prompt(prompt)] + OpsOf(hs[..n - 1]), OpOf(hs[n - 1]), l, mode);
    }
  }

  /** What the chat is in the end: what the happenings made of it, and one more
      error message unless the turn is complete or the stream has failed. */
  lemma {:induction false} PromptLeaves(c: Chat, prompt: string, hs: seq<Happening>, n: nat, l: Layout, mode: Mode)
    requires LoopEndsAt(hs, n)
    ensures
      var d := ChatAfter(c, prompt, hs, n, l, mode);
      ApplyAll(c, PromptOps(prompt, None, hs), l, mode) ==
        if n == |hs| then WithError(d, "stream closed before turn completion")
        else
          match hs[n].d
          case ClosedError => d
          case Event(TurnFailed(message)) =>
            WithError(Consume(d, hs[n].d.event, l, mode), "turn failed: " + message)
          case Event(ErrorEvent(message)) =>
            WithError(Consume(d, hs[n].d.event, l, mode), "stream error: " + message)
          case Event(e) => Consume(d, e, l, mode)
  {
    FirstHaltIs(hs, n);
    ChatAfterOps(c, prompt, hs, n, l, mode);
    var ops := [Prompt(prompt)] + OpsOf(hs[..n]);
    Regroup([Prompt(prompt)], OpsOf(hs[..n]), Closing(hs, n));
    if n == |hs| {
      ApplyLast(c, ops, Say(ErrorBlock, "stream closed before turn completion"), l, mode);
    } else if hs[n].d.ClosedError? {
      assert ops + [] == ops;
    } else {
      ClosingOps(ops, hs, n);
      EndLeaves(c, ops, hs[n].d.event, l, mode);
    }
  }

  lemma {:induction false} EndLeaves(c: Chat, ops: seq<ChatOp>, e: ThreadEvent, l: Layout, mode: Mode)
    requires EndsTurn(e)
    ensures
      var d := Consume(ApplyAll(c, ops, l, mode), e, l, mode);
      ApplyAll(c, ops + [Receive(e)] + Complaint(e), l, mode) ==
        match e
        case TurnFailed(message) => WithError(d, "turn failed: " + message)
        case ErrorEvent(message) => WithError(d, "stream error: " + message)
        case _ => d
  {
    ApplyLast(c, ops, Receive(e), l, mode);
    var all := ops + [Receive(e)];
    if e.TurnFailed? {
      ApplyLast(c, all, Say(ErrorBlock, "turn failed: " + e.message), l, mode);
    } else if e.ErrorEvent? {
      ApplyLast(c, all, Say(ErrorBlock, "stream error: " + e.message), l, mode);
    } else {
      assert all + [] == all;
    }
  }

  /** A turn that cannot be started leaves the prompt and the reason. */
  lemma UnstartedPromptLeaves(c: Chat, prompt: string, error: string, hs: seq<Happening>, l: Layout, mode: Mode)
    ensures ApplyAll(c, PromptOps(prompt, Some(error), hs), l, mode).blocks
         == c.blocks + [Block(UserBlock, None, prompt)] + [Block(ErrorBlock, None, "could not start turn: " + error)]
  {
    var first, second := Prompt(prompt), Say(ErrorBlock, "could not start turn: " + error);
    assert [first, second] == [first] + [second] && [first] == [] + [first];
    ApplyLast(c, [first], second, l, mode);
    ApplyLast(c, [], first, l, mode);
  }

  // ----- the deliveries among the happenings

  function Deliveries(hs: seq<Happening>): seq<Delivery> {
    if hs == [] then []
    else
      var h := hs[|hs| - 1];
      Deliveries(hs[..|hs| - 1]) + if h.Delivered? then [h.d] else []
  }

  lemma DeliveriesAppend(hs: seq<Happening>, h: Happening)
    ensures Deliveries(hs + [h]) == Deliveries(hs) + if h.Delivered? then [h.d] else []
  {
    assert (hs + [h])[..|hs|] == hs;
  }

  lemma {:induction false} DeliveriesConcat(hs: seq<Happening>, gs: seq<Happening>)
    ensures Deliveries(hs + gs) == Deliveries(hs) + Deliveries(gs)
    decreases |gs|
  {
    if gs == [] {
      assert hs + gs == hs;
    } else {
      var init, h := gs[..|gs| - 1], gs[|gs| - 1];
      assert hs + gs == (hs + init) + [h];
      DeliveriesConcat(hs, init);
      DeliveriesAppend(hs + init, h);
    }
  }

  lemma {:induction false} DeliveredAreElements(hs: seq<Happening>)
    ensures forall h :: h in hs && h.Delivered? ==> h.d in Deliveries(hs)
    ensures forall d :: d in Deliveries(hs) ==> Delivered(d) in hs
  {
    if hs != [] {
      var init, h := hs[..|hs| - 1], hs[|hs| - 1];
      DeliveredAreElements(init);
      assert forall g :: g in hs ==> g in init || g == h;
      assert forall g :: g in init ==> g in hs;
    }
  }

  /** Which happening the `k`-th delivery is. */
  lemma {:induction false} PositionOf(hs: seq<Happening>, k: nat) returns (n: nat)
    requires k < |Deliveries(hs)|
    ensures n < |hs| && hs[n] == Delivered(Deliveries(hs)[k]) && Deliveries(hs[..n]) == Deliveries(hs)[..k]
  {
    var init := hs[..|hs| - 1];
    if k < |Deliveries(init)| {
      n := PositionOf(init, k);
      Prefixes(hs, n, |init|);
    } else {
      n := |init|;
    }
  }

  /** Where a delivery is among the happenings. */
  lemma SplitAt(hs: seq<Happening>, before: seq<Delivery>, d: Delivery, rest: seq<Delivery>)
    returns (front: seq<Happening>, back: seq<Happening>)
    requires Deliveries(hs) == before + [d] + rest
    ensures hs == front + [Delivered(d)] + back
    ensures Deliveries(front) == before && Deliveries(back) == rest
  {
    var n := PositionOf(hs, |before|);
    front, back := hs[..n], hs[n + 1..];
    assert hs == front + [Delivered(d)] + back;
    DeliveriesAppend(front, Delivered(d));
    DeliveriesConcat(front + [Delivered(d)], back);
    SameRest(before + [d], Deliveries(back), rest);
  }

  lemma SameRest(ds: seq<Delivery>, es: seq<Delivery>, fs: seq<Delivery>)
    requires ds + es == ds + fs
    ensures es == fs
  {
    assert (ds + es)[|ds|..] == es && (ds + fs)[|ds|..] == fs;
  }

  // ----- an agent message

  /** A signal that streams text for `id` to the turn. */
  predicate StreamsFor(s: Signal, t: Target, id: string) {
    s.Notified? && s.n.AgentDelta? && Concerns(s.n, t) && GetOr(s.n.delta.itemId, "") == id
  }

  predicate CompletesFor(s: Signal, t: Target, id: string) {
    && s.Notified? && s.n.Completed? && Concerns(s.n, t)
    && t.parse(s.n.item).AgentMessage? && t.parse(s.n.item).id == id
  }

  predicate Interrupts(s: Signal, t: Target) {
    Terminal(s, t) || Fails(s, t)
  }

  function SignalText(ss: seq<Signal>, t: Target, id: string): string {
    if ss == [] then ""
    else
      var last := ss[|ss| - 1];
      SignalText(ss[..|ss| - 1], t, id) + if StreamsFor(last, t, id) then TurnPump.DeltaText(last.n.delta) else ""
  }

  predicate OnlyStreamed(ds: seq<Delivery>, id: string) {
    forall i :: 0 <= i < |ds| ==> ds[i].Event? && !Stops(ds[i]) && OnlyStreams(Receive(ds[i].event), id)
  }

  function StreamedIn(d: Delivery, id: string): string {
    if d.Event? && IsDeltaOf(d.event, id) then d.event.item.text else ""
  }

  function DeliveredText(ds: seq<Delivery>, id: string): string {
    if ds == [] then "" else DeliveredText(ds[..|ds| - 1], id) + StreamedIn(ds[|ds| - 1], id)
  }

  lemma DeliveredTextAppend(ds: seq<Delivery>, d: Delivery, id: string)
    ensures DeliveredText(ds + [d], id) == DeliveredText(ds, id) + StreamedIn(d, id)
  {
    assert (ds + [d])[..|ds|] == ds;
  }

  /** Signals that neither complete `id` nor end the turn become deliveries
      that only stream, and stream the same text. */
  lemma {:induction false} FilterMapStreams(ss: seq<Signal>, t: Target, id: string)
    requires forall i :: 0 <= i < |ss| ==> !CompletesFor(ss[i], t, id) && !Interrupts(ss[i], t)
    ensures OnlyStreamed(FilterMap(ss, t), id)
    ensures DeliveredText(FilterMap(ss, t), id) == SignalText(ss, t, id)
  {
    if ss != [] {
      FilterMapStreams(ss[..|ss| - 1], t, id);
      EmittedStreams(ss[|ss| - 1], t, id);
      StreamedMore(FilterMap(ss[..|ss| - 1], t), Emitted(ss[|ss| - 1], t), id);
    }
  }

  lemma StreamedMore(ds: seq<Delivery>, more: seq<Delivery>, id: string)
    requires OnlyStreamed(ds, id) && OnlyStreamed(more, id) && |more| <= 1
    ensures OnlyStreamed(ds + more, id)
    ensures DeliveredText(ds + more, id) == DeliveredText(ds, id) + if more == [] then "" else StreamedIn(more[0], id)
  {
    if more == [] {
      assert ds + more == ds && DeliveredText(ds, id) + "" == DeliveredText(ds, id);
    } else {
      assert more == [more[0]];
      DeliveredTextAppend(ds, more[0], id);
    }
  }

  lemma EmittedStreams(s: Signal, t: Target, id: string)
    requires !CompletesFor(s, t, id) && !Interrupts(s, t)
    ensures
      var ds := Emitted(s, t);
      var text := if StreamsFor(s, t, id) then TurnPump.DeltaText(s.n.delta) else "";
      |ds| <= 1 && OnlyStreamed(ds, id) && text == if ds == [] then "" else StreamedIn(ds[0], id)
  {
  }

  /** Failed interrupts between them do not change what deliveries stream. */
  lemma {:induction false} HappeningsStream(hs: seq<Happening>, id: string)
    requires OnlyStreamed(Deliveries(hs), id)
    ensures GoesOn(hs) && Streamed(OpsOf(hs), id) == DeliveredText(Deliveries(hs), id)
    ensures forall i :: 0 <= i < |hs| ==> OnlyStreams(OpOf(hs[i]), id)
  {
    if hs != [] {
      var init, h := hs[..|hs| - 1], hs[|hs| - 1];
      assert hs == init + [h];
      OneHappening(init, h, id);
      HappeningsStream(init, id);
      HappeningStreams(init, h, id);
    }
  }

  lemma OneHappening(init: seq<Happening>, h: Happening, id: string)
    requires OnlyStreamed(Deliveries(init + [h]), id)
    ensures OnlyStreamed(Deliveries(init), id) && !Halts(h) && OnlyStreams(OpOf(h), id)
  {
    DeliveriesAppend(init, h);
    var ds, all := Deliveries(init), Deliveries(init + [h]);
    assert forall i :: 0 <= i < |ds| ==> ds[i] == all[i];
    if h.Delivered? { assert all[|ds|] == h.d; }
  }

  lemma HappeningStreams(init: seq<Happening>, h: Happening, id: string)
    requires GoesOn(init) && !Halts(h) && Streamed(OpsOf(init), id) == DeliveredText(Deliveries(init), id)
    ensures GoesOn(init + [h])
    ensures Streamed(OpsOf(init + [h]), id) == DeliveredText(Deliveries(init + [h]), id)
  {
    StreamedAppend(init, h, id);
    DeliveriesAppend(init, h);
    if h.Delivered? {
      DeliveredTextAppend(Deliveries(init), h.d, id);
    } else {
      assert Streamed(OpsOf(init), id) + "" == Streamed(OpsOf(init), id);
      assert Deliveries(init) + [] == Deliveries(init);
    }
  }

  lemma StreamedAppend(init: seq<Happening>, h: Happening, id: string)
    requires GoesOn(init) && !Halts(h)
    ensures GoesOn(init + [h])
    ensures Streamed(OpsOf(init + [h]), id) == Streamed(OpsOf(init), id) + StreamedBy(OpOf(h), id)
  {
    var ops := OpsOf(init + [h]);
    assert ops[..|ops| - 1] == OpsOf(init);
  }

  /** Signals that do not mention `id`. */
  predicate Quiet(rr: seq<Signal>, t: Target, id: string) {
    forall i :: 0 <= i < |rr| ==> !StreamsFor(rr[i], t, id) && !CompletesFor(rr[i], t, id)
  }

  /** They add deliveries that do not either. */
  lemma {:induction false} SilentSignals(ss: seq<Signal>, rr: seq<Signal>, t: Target, id: string)
    returns (rest: seq<Delivery>)
    requires Quiet(rr, t, id)
    ensures TurnOutput(ss + rr, t) == TurnOutput(ss, t) + rest && Silent(rest, id)
    decreases |rr|
  {
    if rr == [] {
      rest := [];
      assert ss + rr == ss;
    } else {
      var init, s := rr[..|rr| - 1], rr[|rr| - 1];
      assert rr == init + [s];
      Regroup(ss, init, [s]);
      var front := SilentSignals(ss, init, t, id);
      rest := SilentMore(TurnOutput(ss, t), front, ss + init, s, t, id);
    }
  }

  lemma SilentMore(out: seq<Delivery>, front: seq<Delivery>, ss: seq<Signal>, s: Signal, t: Target, id: string)
      returns (rest: seq<Delivery>)
    requires TurnOutput(ss, t) == out + front && Silent(front, id)
    requires !StreamsFor(s, t, id) && !CompletesFor(s, t, id)
    ensures TurnOutput(ss + [s], t) == out + rest && Silent(rest, id)
  {
    OutputAppend(ss, s, t);
    SilentAdded(ss, s, t, id);
    rest := front + Added(ss, s, t);
    Regroup(out, front, Added(ss, s, t));
  }

  lemma SilentAdded(ss: seq<Signal>, s: Signal, t: Target, id: string)
    requires !StreamsFor(s, t, id) && !CompletesFor(s, t, id)
    ensures Silent(Added(ss, s, t), id)
  {
  }

  predicate Silent(ds: seq<Delivery>, id: string) {
    forall i :: 0 <= i < |ds| && ds[i].Event? ==> !About(ds[i].event, id)
  }

  lemma {:induction false} NotOver(ss: seq<Signal>, t: Target)
    requires forall i :: 0 <= i < |ss| ==> !Terminal(ss[i], t)
    ensures !Over(ss, t) && TurnOutput(ss, t) == FilterMap(ss, t)
  {
    FirstTerminalIs(ss, t, |ss|);
    assert ss[..|ss|] == ss;
  }

  /** The turn's deliveries around the completion of `id`. */
  lemma OutputAround(before: seq<Signal>, done: Signal, after: seq<Signal>, t: Target, id: string)
      returns (rest: seq<Delivery>)
    requires CompletesFor(done, t, id)
    requires forall i :: 0 <= i < |before| ==> !CompletesFor(before[i], t, id) && !Interrupts(before[i], t)
    requires Quiet(after, t, id)
    ensures TurnOutput(before + [done] + after, t)
        == FilterMap(before, t) + [Event(ItemCompleted(t.parse(done.n.item)))] + rest
    ensures Silent(rest, id)
  {
    NotOver(before, t);
    OutputAppend(before, done, t);
    rest := SilentSignals(before + [done], after, t, id);
  }

  /** What `run_prompt` does with happenings of that shape. */
  lemma OpsAround(prompt: string, front: seq<Happening>, done: ThreadEvent, back: seq<Happening>, id: string)
    returns (after: seq<ChatOp>)
    requires GoesOn(front) && IsCompletionOf(done, id) && Silent(Deliveries(back), id)
    ensures PromptOps(prompt, None, front + [Delivered(Event(done))] + back)
         == [Prompt(prompt)] + OpsOf(front) + [Receive(done)] + after
    ensures forall i :: 0 <= i < |after| ==> !Mentions(after[i], id) && !after[i].Clear?
  {
    HaltsLater(front, Delivered(Event(done)), back);
    after := LoopOps(back);
    Regroup([Prompt(prompt)], OpsOf(front), [Receive(done)]);
    Regroup([Prompt(prompt)], OpsOf(front) + [Receive(done)], after);
    SilentAfter(back, id);
  }

  lemma GoesOnBoth(hs: seq<Happening>, gs: seq<Happening>)
    requires GoesOn(hs) && GoesOn(gs)
    ensures GoesOn(hs + gs) && OpsOf(hs + gs) == OpsOf(hs) + OpsOf(gs)
  {
  }

  lemma HaltsAfter(front: seq<Happening>, back: seq<Happening>)
    requires GoesOn(front)
    ensures
      var hs, m := front + back, FirstHalt(back);
      && FirstHalt(hs) == |front| + m && hs[..|front| + m] == front + back[..m]
      && (m < |back| ==> hs[|front| + m] == back[m])
  {
    var m := FirstHalt(back);
    TakeBoth(front, back, m);
    GoesOnBoth(front, back[..m]);
    FirstHaltIs(front + back, |front| + m);
  }

  lemma TakeBoth(front: seq<Happening>, back: seq<Happening>, m: nat)
    requires m <= |back|
    ensures (front + back)[..|front| + m] == front + back[..m]
    ensures m < |back| ==> (front + back)[|front| + m] == back[m]
  {
  }

  /** Happenings that go on, before others. */
  lemma HaltsLater(front: seq<Happening>, h: Happening, back: seq<Happening>)
    requires GoesOn(front) && !Halts(h)
    ensures LoopOps(front + [h] + back) == OpsOf(front) + [OpOf(h)] + LoopOps(back)
  {
    var m := FirstHalt(back);
    GoesOnBoth(front, [h]);
    assert OpsOf([h]) == [OpOf(h)];
    HaltsAfter(front + [h], back);
    GoesOnBoth(front + [h], back[..m]);
    Regroup(OpsOf(front + [h]), OpsOf(back[..m]), Closing(back, m));
  }

  lemma SilentAfter(back: seq<Happening>, id: string)
    requires Silent(Deliveries(back), id)
    ensures
      var after := LoopOps(back);
      forall i :: 0 <= i < |after| ==> !Mentions(after[i], id) && !after[i].Clear?
  {
    var m := FirstHalt(back);
    SilentHappenings(back, id);
    forall i | 0 <= i < m ensures !Mentions(OpOf(back[i]), id) && !OpOf(back[i]).Clear? {
      assert back[..m][i] == back[i] && back[i] in back;
    }
    assert forall i :: 0 <= i < m ==> OpsOf(back[..m])[i] == OpOf(back[i]);
    if m < |back| { assert back[m] in back; }
  }

  lemma SilentHappenings(hs: seq<Happening>, id: string)
    requires Silent(Deliveries(hs), id)
    ensures forall h :: h in hs && h.Delivered? && h.d.Event? ==> !About(h.d.event, id)
  {
    DeliveredAreElements(hs);
  }

  /** From the shared stream to the screen: however the signals of several
      turns are merged, and whatever interrupts fail meanwhile, the prompt's
      chat shows an agent message of its own turn exactly once, with exactly
      its completed text, as long as the turn is not over before the message
      is, and whatever the turn streams for the message adds up to it. */
  lemma MessageReachesTheScreen(c: Chat, prompt: string, es: seq<Tagged>, t: Target, hs: seq<Happening>, l: Layout,
                                id: string, before: seq<Signal>, done: Signal, after: seq<Signal>)
    requires forall i :: 0 <= i < |es| ==> WellTagged(es[i], t)
    requires Deliveries(hs) == TurnOutput(Signals(es), t)
    requires Signals(Own(es, t)) == before + [done] + after
    requires CompletesFor(done, t, id)
    requires forall i :: 0 <= i < |before| ==> !CompletesFor(before[i], t, id) && !Interrupts(before[i], t)
    requires Quiet(after, t, id)
    requires SignalText(before, t, id) == "" || SignalText(before, t, id) == t.parse(done.n.item).text
    requires Texts(c.blocks, AgentBlock, id) == []
    ensures
      var text := t.parse(done.n.item).text;
      var end := ApplyAll(c, PromptOps(prompt, None, hs), l, Streaming);
      Texts(end.blocks, AgentBlock, id) == if text == "" then [] else [text]
  {
    TurnsAreIsolated(es, t);
    var rest := OutputAround(before, done, after, t, id);
    var ds, e := FilterMap(before, t), ItemCompleted(t.parse(done.n.item));
    FilterMapStreams(before, t, id);
    var front, back := SplitAt(hs, ds, Event(e), rest);
    HappeningsStream(front, id);
    var ops := OpsAround(prompt, front, e, back, id);
    AgentStep(c, Prompt(prompt), l, id);
    ApplyLast(c, [], Prompt(prompt), l, Streaming);
    assert [] + [Prompt(prompt)] == [Prompt(prompt)];
    ShownFrom(c, [Prompt(prompt)], OpsOf(front), e, ops, l, id);
  }

  // ----- final responses only

  /** The final answers among the completed items, in order. */
  function FinalAnswers(items: seq<ThreadItem>): seq<string> {
    if items == [] then []
    else
      var last := items[|items| - 1];
      FinalAnswers(items[..|items| - 1]) + if last.AgentMessage? && last.finalAnswer then [last.text] else []
  }

  function AgentBlocks(ts: seq<string>): seq<Block> {
    seq(|ts|, i requires 0 <= i < |ts| => Block(AgentBlock, None, ts[i]))
  }

  /** What a finished turn leaves on the screen. */
  function Answers(items: seq<ThreadItem>): seq<string> {
    var finals, fallback := FinalAnswers(items), LastAgentText(items, false);
    if finals != [] then finals else if fallback.Some? then [fallback.value] else []
  }

  /** The blocks that are not error messages. */
  function NoErrors(bs: seq<Block>): seq<Block> {
    if bs == [] then []
    else
      var last := bs[|bs| - 1];
      NoErrors(bs[..|bs| - 1]) + if last.kind.ErrorBlock? then [] else [last]
  }

  lemma NoErrorsAppend(bs: seq<Block>, b: Block)
    ensures NoErrors(bs + [b]) == NoErrors(bs) + if b.kind.ErrorBlock? then [] else [b]
  {
    assert (bs + [b])[..|bs|] == bs;
  }

  /** What the chat has after a prompt and some completed items, error messages
      apart. */
  predicate HasAnswers(c: Chat, d: Chat, prompt: string, items: seq<ThreadItem>) {
    && NoErrors(d.blocks)
       == NoErrors(c.blocks) + [Block(UserBlock, None, prompt)] + AgentBlocks(FinalAnswers(items))
    && d.fallback == LastAgentText(items, false)
    && (d.emitted <==> FinalAnswers(items) != [])
  }

  lemma AgentBlocksAppend(ts: seq<string>, t: string)
    ensures AgentBlocks(ts + [t]) == AgentBlocks(ts) + [Block(AgentBlock, None, t)]
  {
  }

  lemma AnswerStep(c: Chat, d: Chat, prompt: string, items: seq<ThreadItem>, e: ThreadEvent, l: Layout)
    requires HasAnswers(c, d, prompt, items) && !e.TurnCompleted?
    ensures HasAnswers(c, Consume(d, e, l, FinalOnly), prompt, items + if e.ItemCompleted? then [e.item] else [])
  {
    if e.ItemCompleted? {
      ItemAppended(items, e.item);
      if e.item.AgentMessage? && e.item.finalAnswer {
        NoErrorsAppend(d.blocks, Block(AgentBlock, None, e.item.text));
        AgentBlocksAppend(FinalAnswers(items), e.item.text);
      }
    } else {
      assert items + [] == items;
    }
  }

  lemma ItemAppended(items: seq<ThreadItem>, item: ThreadItem)
    ensures
      var answers := if item.AgentMessage? && item.finalAnswer then [item.text] else [];
      FinalAnswers(items + [item]) == FinalAnswers(items) + answers
    ensures LastAgentText(items + [item], false) ==
            if item.AgentMessage? && !item.finalAnswer then Some(item.text) else LastAgentText(items, false)
  {
    assert (items + [item])[..|items|] == items;
  }

  lemma {:induction false} AnswersSoFar(c: Chat, prompt: string, hs: seq<Happening>, l: Layout)
    requires GoesOn(hs)
    ensures
      var d := ApplyAll(c, [Prompt(prompt)] + OpsOf(hs), l, FinalOnly);
      HasAnswers(c, d, prompt, CompletedItems(Deliveries(hs)))
  {
    if hs == [] {
      NoAnswersYet(c, prompt, l);
      assert [Prompt(prompt)] + OpsOf(hs) == [Prompt(prompt)];
    } else {
      var n := |hs| - 1;
      AnswersSoFar(c, prompt, hs[..n], l);
      LastHappening(c, prompt, hs, l);
      AnswerAfter(c, ApplyAll(c, [Prompt(prompt)] + OpsOf(hs[..n]), l, FinalOnly), prompt, hs[..n], hs[n], l);
      assert hs == hs[..n] + [hs[n]];
    }
  }

  lemma NoAnswersYet(c: Chat, prompt: string, l: Layout)
    ensures HasAnswers(c, ApplyAll(c, [Prompt(prompt)], l, FinalOnly), prompt, [])
  {
    ApplyLast(c, [], Prompt(prompt), l, FinalOnly);
    assert [Prompt(prompt)] == [] + [Prompt(prompt)];
    NoErrorsAppend(c.blocks, Block(UserBlock, None, prompt));
    assert AgentBlocks([]) == [];
  }

  lemma LastHappening(c: Chat, prompt: string, hs: seq<Happening>, l: Layout)
    requires hs != [] && GoesOn(hs)
    ensures
      var n := |hs| - 1;
      ApplyAll(c, [Prompt(prompt)] + OpsOf(hs), l, FinalOnly)
      == Apply(ApplyAll(c, [Prompt(prompt)] + OpsOf(hs[..n]), l, FinalOnly), OpOf(hs[n]), l, FinalOnly)
  {
    var n := |hs| - 1;
    assert hs[..n + 1] == hs;
    OneMoreOp([Prompt(prompt)], hs, n);
    ApplyLast(c, [Prompt(prompt)] + OpsOf(hs[..n]), OpOf(hs[n]), l, FinalOnly);
  }

  lemma AnswerAfter(c: Chat, d: Chat, prompt: string, hs: seq<Happening>, h: Happening, l: Layout)
    requires !Halts(h) && HasAnswers(c, d, prompt, CompletedItems(Deliveries(hs)))
    ensures HasAnswers(c, Apply(d, OpOf(h), l, FinalOnly), prompt, CompletedItems(Deliveries(hs + [h])))
  {
    DeliveriesAppend(hs, h);
    if h.Delivered? {
      CompletedAppend(Deliveries(hs), h.d);
      AnswerStep(c, d, prompt, CompletedItems(Deliveries(hs)), h.d.event, l);
    } else {
      assert Deliveries(hs) + [] == Deliveries(hs);
      NoErrorsAppend(d.blocks, Block(ErrorBlock, None, "could not interrupt turn: " + h.error));
    }
  }

  lemma {:induction false} LastFinalAnswer(items: seq<ThreadItem>)
    ensures LastAgentText(items, true) ==
            if FinalAnswers(items) == [] then None else Some(FinalAnswers(items)[|FinalAnswers(items)| - 1])
  {
    if items != [] {
      LastFinalAnswer(items[..|items| - 1]);
    }
  }

  /** The loop halts where reading its deliveries stops. */
  lemma HaltIsStop(hs: seq<Happening>)
    ensures
      var n, m := FirstHalt(hs), FirstStop(Deliveries(hs));
      && Deliveries(hs[..n]) == Deliveries(hs)[..m]
      && (n < |hs| <==> m < |Deliveries(hs)|)
      && (n < |hs| ==> hs[n].d == Deliveries(hs)[m])
  {
    var n, ds := FirstHalt(hs), Deliveries(hs);
    NoStopBefore(hs[..n]);
    assert hs == hs[..n] + hs[n..];
    DeliveriesConcat(hs[..n], hs[n..]);
    if n < |hs| {
      FirstDelivery(hs[n], hs[n + 1..]);
      assert hs[n..] == [hs[n]] + hs[n + 1..];
    } else {
      assert hs[n..] == [];
    }
    StopsAt(ds, Deliveries(hs[..n]), Deliveries(hs[n..]));
  }

  lemma NoStopBefore(hs: seq<Happening>)
    requires GoesOn(hs)
    ensures forall i :: 0 <= i < |Deliveries(hs)| ==> !Stops(Deliveries(hs)[i])
  {
    DeliveredAreElements(hs);
    forall i | 0 <= i < |Deliveries(hs)| ensures !Stops(Deliveries(hs)[i]) {
      assert Deliveries(hs)[i] in Deliveries(hs);
      var j :| 0 <= j < |hs| && hs[j] == Delivered(Deliveries(hs)[i]);
      assert !Halts(hs[j]);
    }
  }

  lemma FirstDelivery(h: Happening, hs: seq<Happening>)
    requires h.Delivered?
    ensures Deliveries([h] + hs) == [h.d] + Deliveries(hs)
  {
    DeliveriesConcat([h], hs);
    DeliveriesAppend([], h);
    assert [] + [h] == [h];
  }

  lemma StopsAt(ds: seq<Delivery>, front: seq<Delivery>, back: seq<Delivery>)
    requires ds == front + back && (forall i :: 0 <= i < |front| ==> !Stops(front[i]))
    requires back != [] ==> Stops(back[0])
    ensures FirstStop(ds) == |front| && ds[..|front|] == front && (back != [] ==> ds[|front|] == back[0])
  {
    assert forall i :: 0 <= i < |front| ==> ds[i] == front[i];
    assert forall i :: 0 <= i < |front| ==> !Stops(ds[i]);
    if back != [] { assert ds[|front|] == back[0]; }
    var m := FirstStop(ds);
  }

  /** Showing final responses only, a turn that finishes leaves all its final
      answers, or else the last other agent message, besides error messages
      about failed interrupts; the last of them is what `run` returns for the
      same turn. */
  lemma FinalResponsesShown(c: Chat, prompt: string, hs: seq<Happening>, l: Layout)
    requires ResultOf(Deliveries(hs)).Finished?
    ensures
      var result := ResultOf(Deliveries(hs));
      var answers := Answers(result.items);
      && NoErrors(ApplyAll(c, PromptOps(prompt, None, hs), l, FinalOnly).blocks)
         == NoErrors(c.blocks) + [Block(UserBlock, None, prompt)] + AgentBlocks(answers)
      && result.finalResponse == if answers == [] then "" else answers[|answers| - 1]
  {
    HaltIsStop(hs);
    var n := FirstHalt(hs);
    var ops, items, e := [Prompt(prompt)] + OpsOf(hs[..n]), CompletedItems(Deliveries(hs[..n])), hs[n].d.event;
    AnswersSoFar(c, prompt, hs[..n], l);
    ApplyLast(c, ops, Receive(e), l, FinalOnly);
    assert Closing(hs, n) == [Receive(e)];
    Regroup([Prompt(prompt)], OpsOf(hs[..n]), [Receive(e)]);
    AnswersDone(c, ApplyAll(c, ops, l, FinalOnly), prompt, items, e, l);
    LastAnswer(items);
  }

  lemma AnswersDone(c: Chat, d: Chat, prompt: string, items: seq<ThreadItem>, e: ThreadEvent, l: Layout)
    requires HasAnswers(c, d, prompt, items) && e.TurnCompleted?
    ensures NoErrors(Consume(d, e, l, FinalOnly).blocks)
         == NoErrors(c.blocks) + [Block(UserBlock, None, prompt)] + AgentBlocks(Answers(items))
  {
    if !d.emitted && d.fallback.Some? {
      NoErrorsAppend(d.blocks, Block(AgentBlock, None, d.fallback.value));
      AgentBlocksAppend([], d.fallback.value);
      assert AgentBlocks([]) == [] && [] + [d.fallback.value] == [d.fallback.value];
    }
  }

  lemma LastAnswer(items: seq<ThreadItem>)
    ensures FinalResponse(items) == if Answers(items) == [] then "" else Answers(items)[|Answers(items)| - 1]
  {
    LastFinalAnswer(items);
  }
}
