/** The chat transcript of `luna chat` (crates/luna/src/commands/chat.rs). */
module Transcript {
  import opened Options
  import opened Threads
  import opened Render

  datatype BlockKind = UserBlock | AgentBlock | ReasoningBlock | ToolBlock | StatusBlock | ErrorBlock | RawBlock

  /** `TranscriptKind::from` */
  function BlockKindOf(k: Kind): BlockKind {
    match k
    case UserKind => UserBlock
    case AgentKind => AgentBlock
    case ReasoningKind => ReasoningBlock
    case PlanKind => ReasoningBlock
    case ToolKind => ToolBlock
    case CommandKind => ToolBlock
    case FileKind => ToolBlock
    case ErrorKind => ErrorBlock
    case StatusKind => StatusBlock
    case UnknownKind => StatusBlock
  }

  datatype Block = Block(kind: BlockKind, itemId: Option<string>, text: string)

  datatype Chat = Chat(blocks: seq<Block>, streamed: Keys, fallback: Option<string>, emitted: bool)

  predicate Keyed(b: Block, kind: BlockKind, id: string) {
    b.kind == kind && b.itemId == Some(id)
  }

  /** The texts of the blocks under one key, in order. */
  function Texts(bs: seq<Block>, kind: BlockKind, id: string): seq<string> {
    if bs == [] then []
    else
      var last := bs[|bs| - 1];
      Texts(bs[..|bs| - 1], kind, id) + if Keyed(last, kind, id) then [last.text] else []
  }

  function BlockOf(f: RenderedItem): Block {
    Block(BlockKindOf(f.kind), f.itemId, f.markdown)
  }

  /** The last block under the fragment's key, or the end. */
  function LastIndex(bs: seq<Block>, f: RenderedItem): (n: nat)
    ensures n <= |bs|
    ensures n < |bs| ==> f.itemId.Some? && Keyed(bs[n], BlockKindOf(f.kind), f.itemId.value)
    ensures f.itemId.Some? ==>
              forall i :: (if n == |bs| then 0 else n + 1) <= i < |bs| ==>
                !Keyed(bs[i], BlockKindOf(f.kind), f.itemId.value)
  {
    if bs == [] then 0
    else
      var k := |bs| - 1;
      if f.itemId.Some? && Keyed(bs[k], BlockKindOf(f.kind), f.itemId.value) then k
      else
        var n := LastIndex(bs[..k], f);
        if n == k then |bs| else n
  }

  /** `push_fragment` */
  function Push(bs: seq<Block>, f: RenderedItem): seq<Block> {
    var n := LastIndex(bs, f);
    if f.continuation && n < |bs| then bs[n := bs[n].(text := bs[n].text + f.markdown)]
    else bs + [BlockOf(f)]
  }

  /** How events are shown: as they stream, by their final responses, or as
      JSON text. */
  datatype Mode = Streaming | FinalOnly | JsonEvents(encode: ThreadEvent -> string)

  /** `consume_thread_event` */
  function Consume(c: Chat, e: ThreadEvent, l: Layout, mode: Mode): Chat {
    match mode
    case JsonEvents(encode) => c.(blocks := c.blocks + [Block(RawBlock, None, encode(e))])
    case FinalOnly =>
      if e.ItemCompleted? && e.item.AgentMessage? then
        if e.item.finalAnswer then c.(blocks := c.blocks + [Block(AgentBlock, None, e.item.text)], emitted := true)
        else c.(fallback := Some(e.item.text))
      else if e.TurnCompleted? && !c.emitted && c.fallback.Some? then
        c.(blocks := c.blocks + [Block(AgentBlock, None, c.fallback.value)], emitted := true, fallback := None)
      else c
    case Streaming =>
      var (next, shown) := RenderNext(c.streamed, e, l);
      var d := c.(streamed := next);
      if shown.Some? && shown.value.kind != UserKind then d.(blocks := Push(d.blocks, shown.value)) else d
  }

  /** `submit_user_message` */
  function Submit(c: Chat, prompt: string): Chat {
    Chat(c.blocks + [Block(UserBlock, None, prompt)], {}, None, false)
  }

  class ChatApp {
    const mode: Mode
    var transcript: seq<Block>
    var renderer: ThreadEventRenderer
    var fallbackFinalResponse: Option<string>
    var emittedFinalResponse: bool

    constructor (shown: Mode)
      ensures View() == Chat([], {}, None, false) && mode == shown && fresh(renderer)
    {
      mode := shown;
      transcript := [];
      renderer := new ThreadEventRenderer();
      fallbackFinalResponse, emittedFinalResponse := None, false;
    }

    function View(): Chat
      reads this, renderer
    {
      Chat(transcript, renderer.streamedItems, fallbackFinalResponse, emittedFinalResponse)
    }

    method SubmitUserMessage(prompt: string)
      modifies this
      ensures View() == Submit(old(View()), prompt) && fresh(renderer)
    {
      transcript := transcript + [Block(UserBlock, None, prompt)];
      renderer := new ThreadEventRenderer();
      fallbackFinalResponse, emittedFinalResponse := None, false;
    }

    method PushFragment(f: RenderedItem)
      modifies this
      ensures View() == old(View()).(blocks := Push(old(transcript), f)) && renderer == old(renderer)
    {
      if f.continuation && f.itemId.Some? {
        var bs, kind, id, i := transcript, BlockKindOf(f.kind), f.itemId.value, |transcript|;
        while i > 0 && !Keyed(bs[i - 1], kind, id)
          invariant 0 <= i <= |bs|
          invariant forall j :: i <= j < |bs| ==> !Keyed(bs[j], kind, id)
        {
          i := i - 1;
        }
        if i > 0 {
          transcript := bs[i - 1 := bs[i - 1].(text := bs[i - 1].text + f.markdown)];
          return;
        }
      }
      transcript := transcript + [BlockOf(f)];
    }

    method PushFinalResponse(response: string)
      modifies this
      ensures View() == old(View()).(blocks := old(transcript) + [Block(AgentBlock, None, response)], emitted := true)
      ensures renderer == old(renderer)
    {
      emittedFinalResponse := true;
      transcript := transcript + [Block(AgentBlock, None, response)];
    }

    method ConsumeThreadEvent(e: ThreadEvent, l: Layout)
      modifies this, renderer
      ensures View() == Consume(old(View()), e, l, mode) && renderer == old(renderer)
    {
      if mode.JsonEvents? {
        transcript := transcript + [Block(RawBlock, None, mode.encode(e))];
        return;
      }
      if mode.FinalOnly? {
        if e.ItemCompleted? && e.item.AgentMessage? {
          if e.item.finalAnswer {
            PushFinalResponse(e.item.text);
          } else {
            fallbackFinalResponse := Some(e.item.text);
          }
        }
        if e.TurnCompleted? && !emittedFinalResponse && fallbackFinalResponse.Some? {
          var response := fallbackFinalResponse.value;
          fallbackFinalResponse := None;
          PushFinalResponse(response);
        }
        return;
      }
      var shown := renderer.Render(e, l);
      if shown.Some? && shown.value.kind != UserKind {
        PushFragment(shown.value);
      }
    }

    /** `append_status`, `append_error` */
    method Append(kind: BlockKind, message: string)
      modifies this
      ensures View() == old(View()).(blocks := old(transcript) + [Block(kind, None, message)])
          && renderer == old(renderer)
    {
      transcript := transcript + [Block(kind, None, message)];
    }

    method ClearTranscript()
      modifies this
      ensures View() == old(View()).(blocks := []) && renderer == old(renderer)
    {
      transcript := [];
    }
  }

  // ----- what one fragment does to every key

  lemma {:induction false} TextsUnchanged(bs: seq<Block>, cs: seq<Block>, kind: BlockKind, id: string)
    requires |bs| == |cs|
    requires forall i :: 0 <= i < |bs| ==> bs[i] == cs[i] || (!Keyed(bs[i], kind, id) && !Keyed(cs[i], kind, id))
    ensures Texts(bs, kind, id) == Texts(cs, kind, id)
  {
    if bs != [] {
      TextsUnchanged(bs[..|bs| - 1], cs[..|cs| - 1], kind, id);
    }
  }

  /** No block under the key from position `n` on: those before make its texts. */
  lemma {:induction false} TextsOfPrefix(bs: seq<Block>, n: nat, kind: BlockKind, id: string)
    requires n <= |bs| && forall i :: n <= i < |bs| ==> !Keyed(bs[i], kind, id)
    ensures Texts(bs, kind, id) == Texts(bs[..n], kind, id)
    decreases |bs|
  {
    if n < |bs| {
      TextsOfPrefix(bs[..|bs| - 1], n, kind, id);
      assert bs[..|bs| - 1][..n] == bs[..n];
    } else {
      assert bs[..n] == bs;
    }
  }

  /** How the texts of a key change when a fragment is pushed: a continuation
      extends the last of them, anything else adds one, and the other keys
      keep theirs. */
  function TextsPushed(ts: seq<string>, f: RenderedItem, kind: BlockKind, id: string): seq<string> {
    if !Keyed(BlockOf(f), kind, id) then ts
    else if f.continuation && ts != [] then ts[..|ts| - 1] + [ts[|ts| - 1] + f.markdown]
    else ts + [f.markdown]
  }

  lemma PushPerKey(bs: seq<Block>, f: RenderedItem, kind: BlockKind, id: string)
    ensures Texts(Push(bs, f), kind, id) == TextsPushed(Texts(bs, kind, id), f, kind, id)
  {
    var n := LastIndex(bs, f);
    if f.continuation && n < |bs| {
      PushInto(bs, f, n, kind, id);
    } else {
      assert (bs + [BlockOf(f)])[..|bs|] == bs;
      if Keyed(BlockOf(f), kind, id) && f.continuation {
        TextsOfPrefix(bs, 0, kind, id);
      }
    }
  }

  lemma PushInto(bs: seq<Block>, f: RenderedItem, n: nat, kind: BlockKind, id: string)
    requires n == LastIndex(bs, f) < |bs| && f.continuation
    ensures Texts(Push(bs, f), kind, id) == TextsPushed(Texts(bs, kind, id), f, kind, id)
  {
    if Keyed(BlockOf(f), kind, id) {
      TextsUpTo(bs, n, kind, id);
      TextsUpTo(Push(bs, f), n, kind, id);
      assert Push(bs, f)[..n] == bs[..n];
    } else {
      TextsUnchanged(bs, Push(bs, f), kind, id);
    }
  }

  /** The last block of a key adds the last of its texts. */
  lemma TextsUpTo(bs: seq<Block>, n: nat, kind: BlockKind, id: string)
    requires n < |bs| && Keyed(bs[n], kind, id) && forall i :: n < i < |bs| ==> !Keyed(bs[i], kind, id)
    ensures Texts(bs, kind, id) == Texts(bs[..n], kind, id) + [bs[n].text]
  {
    TextsOfPrefix(bs, n + 1, kind, id);
    assert bs[..n + 1][..n] == bs[..n];
  }

  function Concat(ts: seq<string>): string {
    if ts == [] then "" else Concat(ts[..|ts| - 1]) + ts[|ts| - 1]
  }

  lemma ConcatAppend(ts: seq<string>, t: string)
    ensures Concat(ts + [t]) == Concat(ts) + t
  {
    assert (ts + [t])[..|ts|] == ts;
  }

  lemma ConcatPushed(ts: seq<string>, f: RenderedItem, kind: BlockKind, id: string)
    ensures Concat(TextsPushed(ts, f, kind, id)) == Concat(ts) + if Keyed(BlockOf(f), kind, id) then f.markdown else ""
  {
    if Keyed(BlockOf(f), kind, id) {
      if f.continuation && ts != [] {
        var init, last := ts[..|ts| - 1], ts[|ts| - 1];
        ConcatAppend(init, last + f.markdown);
        assert (Concat(init) + last) + f.markdown == Concat(init) + (last + f.markdown);
      } else {
        ConcatAppend(ts, f.markdown);
      }
    } else {
      assert Concat(ts) + "" == Concat(ts);
    }
  }

  /** The fragments pushed under one key. */
  function Pushed(fs: seq<RenderedItem>, kind: BlockKind, id: string): seq<string> {
    if fs == [] then []
    else
      var last := fs[|fs| - 1];
      Pushed(fs[..|fs| - 1], kind, id) + if Keyed(BlockOf(last), kind, id) then [last.markdown] else []
  }

  lemma PushConcat(bs: seq<Block>, f: RenderedItem, kind: BlockKind, id: string)
    ensures Concat(Texts(Push(bs, f), kind, id))
         == Concat(Texts(bs, kind, id)) + if Keyed(BlockOf(f), kind, id) then f.markdown else ""
  {
    PushPerKey(bs, f, kind, id);
    ConcatPushed(Texts(bs, kind, id), f, kind, id);
  }

  lemma PushedLast(fs: seq<RenderedItem>, kind: BlockKind, id: string)
    requires fs != []
    ensures
      var init, f := fs[..|fs| - 1], fs[|fs| - 1];
      Concat(Pushed(fs, kind, id))
      == Concat(Pushed(init, kind, id)) + if Keyed(BlockOf(f), kind, id) then f.markdown else ""
  {
    var init, f := fs[..|fs| - 1], fs[|fs| - 1];
    if Keyed(BlockOf(f), kind, id) {
      ConcatAppend(Pushed(init, kind, id), f.markdown);
    } else {
      assert Pushed(init, kind, id) + [] == Pushed(init, kind, id);
    }
  }

  // ----- what one event shows

  /** A continuation is added to the last block of its kind and id. */
  lemma PushExtends(bs: seq<Block>, f: RenderedItem, n: nat)
    requires f.continuation && f.itemId.Some?
    requires n < |bs| && bs[n].kind == BlockKindOf(f.kind) && bs[n].itemId == f.itemId
    requires forall i :: n < i < |bs| ==> bs[i].kind != BlockKindOf(f.kind) || bs[i].itemId != f.itemId
    ensures Push(bs, f) == bs[n := Block(bs[n].kind, bs[n].itemId, bs[n].text + f.markdown)]
  {
  }

  /** Any other fragment, and one without id, becomes a block of its own at the
      end. */
  lemma PushAppends(bs: seq<Block>, f: RenderedItem)
    requires f.continuation && f.itemId.Some? ==>
               forall i :: 0 <= i < |bs| ==> bs[i].kind != BlockKindOf(f.kind) || bs[i].itemId != f.itemId
    ensures Push(bs, f) == bs + [Block(BlockKindOf(f.kind), f.itemId, f.markdown)]
  {
  }

  /** The kind of block each kind of fragment becomes. */
  lemma BlockKinds(k: Kind)
    ensures BlockKindOf(k) == UserBlock <==> k == UserKind
    ensures BlockKindOf(k) == AgentBlock <==> k == AgentKind
    ensures BlockKindOf(k) == ReasoningBlock <==> k == ReasoningKind || k == PlanKind
    ensures BlockKindOf(k) == ToolBlock <==> k == ToolKind || k == CommandKind || k == FileKind
    ensures BlockKindOf(k) == ErrorBlock <==> k == ErrorKind
    ensures BlockKindOf(k) == StatusBlock <==> k == StatusKind || k == UnknownKind
    ensures BlockKindOf(k) != RawBlock
  {
  }

  /** The user's own items are never echoed, whatever they hold. */
  lemma PromptsAreNotEchoed(c: Chat, e: ThreadEvent, l: Layout)
    requires (e.ItemUpdated? || e.ItemCompleted?) && IsOfKind(UserKind, e.item)
    ensures Consume(c, e, l, Streaming).blocks == c.blocks
  {
    KindsAgree(e.item, UserKind, l);
  }

  /** In JSON mode every event becomes one block with its text. */
  lemma {:induction false} JsonShowsEveryEvent(c: Chat, es: seq<ThreadEvent>, l: Layout, encode: ThreadEvent -> string)
    ensures
      var ops := seq(|es|, i requires 0 <= i < |es| => Receive(es[i]));
      ApplyAll(c, ops, l, JsonEvents(encode)).blocks
      == c.blocks + seq(|es|, i requires 0 <= i < |es| => Block(RawBlock, None, encode(es[i])))
  {
    if es != [] {
      var n := |es| - 1;
      var ops := seq(|es|, i requires 0 <= i < |es| => Receive(es[i]));
      JsonShowsEveryEvent(c, es[..n], l, encode);
      assert ops[..n] == seq(n, i requires 0 <= i < n => Receive(es[..n][i]));
      assert ops == ops[..n] + [Receive(es[n])];
      ApplyLast(c, ops[..n], Receive(es[n]), l, JsonEvents(encode));
    }
  }

  // ----- what happens to a chat over time

  datatype ChatOp =
    | Prompt(prompt: string)
    | Receive(event: ThreadEvent)
    | Say(kind: BlockKind, message: string)
    | Clear

  function Apply(c: Chat, op: ChatOp, l: Layout, mode: Mode): Chat {
    match op
    case Prompt(prompt) => Submit(c, prompt)
    case Receive(e) => Consume(c, e, l, mode)
    case Say(kind, message) => c.(blocks := c.blocks + [Block(kind, None, message)])
    case Clear => c.(blocks := [])
  }

  function ApplyAll(c: Chat, ops: seq<ChatOp>, l: Layout, mode: Mode): Chat {
    if ops == [] then c else Apply(ApplyAll(c, ops[..|ops| - 1], l, mode), ops[|ops| - 1], l, mode)
  }

  lemma ApplyLast(c: Chat, ops: seq<ChatOp>, op: ChatOp, l: Layout, mode: Mode)
    ensures ApplyAll(c, ops + [op], l, mode) == Apply(ApplyAll(c, ops, l, mode), op, l, mode)
  {
    assert (ops + [op])[..|ops|] == ops;
  }

  /** A chat from its operations. */
  method Perform(app: ChatApp, ops: seq<ChatOp>, l: Layout)
    modifies app, app.renderer
    ensures app.View() == ApplyAll(old(app.View()), ops, l, app.mode)
  {
    ghost var start := app.View();
    for i := 0 to |ops|
      invariant app.renderer == old(app.renderer) || fresh(app.renderer)
      invariant app.View() == ApplyAll(start, ops[..i], l, app.mode)
    {
      match ops[i] {
        case Prompt(prompt) => app.SubmitUserMessage(prompt);
        case Receive(e) => app.ConsumeThreadEvent(e, l);
        case Say(kind, message) => app.Append(kind, message);
        case Clear => app.ClearTranscript();
      }
      assert ops[..i + 1] == ops[..i] + [ops[i]];
      ApplyLast(start, ops[..i], ops[i], l, app.mode);
    }
    assert ops[..|ops|] == ops;
  }

  /** The fragment an operation pushes, if any. */
  function PushedBy(c: Chat, op: ChatOp, l: Layout, mode: Mode): Option<RenderedItem> {
    if !op.Receive? || !mode.Streaming? then None
    else
      var shown := RenderNext(c.streamed, op.event, l).1;
      if shown.Some? && shown.value.kind == UserKind then None else shown
  }

  /** The fragments pushed since the transcript was last cleared. */
  function PushedSince(c: Chat, ops: seq<ChatOp>, l: Layout, mode: Mode): seq<RenderedItem> {
    if ops == [] || ops[|ops| - 1].Clear? then []
    else
      var front := ops[..|ops| - 1];
      var f := PushedBy(ApplyAll(c, front, l, mode), ops[|ops| - 1], l, mode);
      PushedSince(c, front, l, mode) + if f.Some? then [f.value] else []
  }

  function KeyedText(f: Option<RenderedItem>, kind: BlockKind, id: string): string {
    if f.Some? && Keyed(BlockOf(f.value), kind, id) then f.value.markdown else ""
  }

  /** What one operation adds to the text of a key. */
  lemma TextGrows(c: Chat, op: ChatOp, l: Layout, mode: Mode, kind: BlockKind, id: string)
    ensures
      var before, after := Concat(Texts(c.blocks, kind, id)),
          Concat(Texts(Apply(c, op, l, mode).blocks, kind, id));
      if op.Clear? then after == "" else after == before + KeyedText(PushedBy(c, op, l, mode), kind, id)
  {
    var d := Apply(c, op, l, mode);
    var f := PushedBy(c, op, l, mode);
    if f.Some? {
      PushConcat(c.blocks, f.value, kind, id);
      assert d.blocks == Push(c.blocks, f.value);
    } else if !op.Clear? {
      assert d.blocks != c.blocks ==> d.blocks[..|c.blocks|] == c.blocks && d.blocks[|c.blocks|].itemId == None;
      UnkeyedBlocks(c.blocks, d.blocks, kind, id);
      assert Concat(Texts(c.blocks, kind, id)) + "" == Concat(Texts(c.blocks, kind, id));
    }
  }

  lemma UnkeyedBlocks(bs: seq<Block>, cs: seq<Block>, kind: BlockKind, id: string)
    requires cs == bs || (|cs| == |bs| + 1 && cs[..|bs|] == bs && cs[|bs|].itemId == None)
    ensures Texts(cs, kind, id) == Texts(bs, kind, id)
  {
  }

  /** Whatever prompts, events, messages and clears make up a chat: for every
      key, its blocks in order read the same as the fragments pushed under it
      since the transcript was last cleared. */
  lemma {:induction false} NothingIsLost(c: Chat, ops: seq<ChatOp>, l: Layout, mode: Mode, kind: BlockKind,
      id: string)
    requires c.blocks == []
    ensures Concat(Texts(ApplyAll(c, ops, l, mode).blocks, kind, id))
         == Concat(Pushed(PushedSince(c, ops, l, mode), kind, id))
  {
    if ops != [] {
      var front, op := ops[..|ops| - 1], ops[|ops| - 1];
      var d := ApplyAll(c, front, l, mode);
      NothingIsLost(c, front, l, mode, kind, id);
      TextGrows(d, op, l, mode, kind, id);
      if !op.Clear? {
        PushedMore(PushedSince(c, front, l, mode), PushedBy(d, op, l, mode), kind, id);
      }
    }
  }

  lemma PushedMore(fs: seq<RenderedItem>, f: Option<RenderedItem>, kind: BlockKind, id: string)
    ensures Concat(Pushed(fs + (if f.Some? then [f.value] else []), kind, id))
         == Concat(Pushed(fs, kind, id)) + KeyedText(f, kind, id)
  {
    if f.Some? {
      assert (fs + [f.value])[..|fs|] == fs;
      PushedLast(fs + [f.value], kind, id);
    } else {
      assert fs + [] == fs && Concat(Pushed(fs, kind, id)) + "" == Concat(Pushed(fs, kind, id));
    }
  }

  lemma {:induction false} ApplyAllSplit(c: Chat, xs: seq<ChatOp>, ys: seq<ChatOp>, l: Layout, mode: Mode)
    ensures ApplyAll(c, xs + ys, l, mode) == ApplyAll(ApplyAll(c, xs, l, mode), ys, l, mode)
    decreases |ys|
  {
    if ys == [] {
      assert xs + ys == xs;
    } else {
      assert (xs + ys)[..|xs + ys| - 1] == xs + ys[..|ys| - 1];
      ApplyAllSplit(c, xs, ys[..|ys| - 1], l, mode);
    }
  }

  predicate Mentions(op: ChatOp, id: string) {
    op.Receive? && About(op.event, id)
  }

  /** What the renderer makes of an event, as far as `id` goes. */
  lemma AgentRender(streamed: Keys, e: ThreadEvent, l: Layout, id: string)
    ensures
      var (next, shown) := RenderNext(streamed, e, l);
      var key := (AgentKind, id);
      var mine := shown.Some? && shown.value.kind != UserKind && Keyed(BlockOf(shown.value), AgentBlock, id);
      if IsDeltaOf(e, id) && e.item.text != "" then
        mine && shown.value.continuation && shown.value.markdown == e.item.text && key in next
      else if IsCompletionOf(e, id) && key !in streamed && e.item.text != "" then
        mine && !shown.value.continuation && shown.value.markdown == e.item.text && key !in next
      else !mine && (key in next <==> key in streamed && !IsCompletionOf(e, id))
  {
  }

  /** What an operation does to the agent blocks of `id`, and to its key. */
  predicate AgentEffect(c: Chat, op: ChatOp, d: Chat, id: string) {
    var ts, us := Texts(c.blocks, AgentBlock, id), Texts(d.blocks, AgentBlock, id);
    var key := (AgentKind, id);
    if op.Prompt? then us == ts && key !in d.streamed
    else if op.Say? then us == ts && (key in d.streamed <==> key in c.streamed)
    else if op.Clear? then us == [] && (key in d.streamed <==> key in c.streamed)
    else if IsDeltaOf(op.event, id) && op.event.item.text != "" then
      key in d.streamed && us == if ts == [] then [op.event.item.text]
          else ts[..|ts| - 1] + [ts[|ts| - 1] + op.event.item.text]
    else if IsCompletionOf(op.event, id) && key !in c.streamed && op.event.item.text != "" then
      key !in d.streamed && us == ts + [op.event.item.text]
    else us == ts && (key in d.streamed <==> key in c.streamed && !IsCompletionOf(op.event, id))
  }

  lemma AgentStep(c: Chat, op: ChatOp, l: Layout, id: string)
    ensures AgentEffect(c, op, Apply(c, op, l, Streaming), id)
  {
    var d := Apply(c, op, l, Streaming);
    if op.Receive? {
      var (next, shown) := RenderNext(c.streamed, op.event, l);
      AgentRender(c.streamed, op.event, l, id);
      if shown.Some? && shown.value.kind != UserKind {
        PushPerKey(c.blocks, shown.value, AgentBlock, id);
        assert d == Chat(Push(c.blocks, shown.value), next, c.fallback, c.emitted);
      } else {
        assert d == c.(streamed := next);
      }
    } else if !op.Clear? {
      assert d.blocks[..|c.blocks|] == c.blocks;
    }
  }

  lemma {:induction false} Unmentioned(c: Chat, ops: seq<ChatOp>, l: Layout, id: string)
    requires forall i :: 0 <= i < |ops| ==> !Mentions(ops[i], id)
    ensures
      var d := ApplyAll(c, ops, l, Streaming);
      && ((AgentKind, id) in d.streamed ==> (AgentKind, id) in c.streamed)
      && ((forall i :: 0 <= i < |ops| ==> !ops[i].Clear?) ==>
            Texts(d.blocks, AgentBlock, id) == Texts(c.blocks, AgentBlock, id))
      && (Texts(c.blocks, AgentBlock, id) == [] ==> Texts(d.blocks, AgentBlock, id) == [])
  {
    if ops != [] {
      var init := ops[..|ops| - 1];
      Unmentioned(c, init, l, id);
      AgentStep(ApplyAll(c, init, l, Streaming), ops[|ops| - 1], l, id);
    }
  }

  /** The text streamed for `id` by some operations. */
  function Streamed(ops: seq<ChatOp>, id: string): string {
    if ops == [] then ""
    else
      var last := ops[|ops| - 1];
      Streamed(ops[..|ops| - 1], id) + StreamedBy(last, id)
  }

  predicate OnlyStreams(op: ChatOp, id: string) {
    op.Say? || (op.Receive? && !IsCompletionOf(op.event, id))
  }

  /** Only streamed so far: nothing if there was no text, else one block. */
  predicate ShowsOnly(c: Chat, id: string, text: string) {
    && ((AgentKind, id) in c.streamed <==> text != "")
    && Texts(c.blocks, AgentBlock, id) == if text == "" then [] else [text]
  }

  function StreamedBy(op: ChatOp, id: string): string {
    if op.Receive? && IsDeltaOf(op.event, id) then op.event.item.text else ""
  }

  lemma StreamingStep(c: Chat, op: ChatOp, l: Layout, id: string, text: string)
    requires ShowsOnly(c, id, text) && OnlyStreams(op, id)
    ensures ShowsOnly(Apply(c, op, l, Streaming), id, text + StreamedBy(op, id))
  {
    AgentStep(c, op, l, id);
    var d := Apply(c, op, l, Streaming);
    if StreamedBy(op, id) == "" {
      assert text + "" == text;
    } else if text == "" {
      assert text + StreamedBy(op, id) == StreamedBy(op, id);
    } else {
      var ts := Texts(c.blocks, AgentBlock, id);
      assert ts[..|ts| - 1] == [] && ts[|ts| - 1] == text;
      assert Texts(d.blocks, AgentBlock, id) == [] + [text + StreamedBy(op, id)];
    }
  }

  lemma {:induction false} WhileStreaming(c: Chat, ops: seq<ChatOp>, l: Layout, id: string)
    requires ShowsOnly(c, id, "")
    requires forall i :: 0 <= i < |ops| ==> OnlyStreams(ops[i], id)
    ensures ShowsOnly(ApplyAll(c, ops, l, Streaming), id, Streamed(ops, id))
  {
    if ops != [] {
      var init := ops[..|ops| - 1];
      WhileStreaming(c, init, l, id);
      StreamingStep(ApplyAll(c, init, l, Streaming), ops[|ops| - 1], l, id, Streamed(init, id));
    }
  }

  lemma ShownFrom(start: Chat, before: seq<ChatOp>, during: seq<ChatOp>, done: ThreadEvent, after: seq<ChatOp>,
      l: Layout, id: string)
    requires IsCompletionOf(done, id)
    requires
      var c := ApplyAll(start, before, l, Streaming);
      Texts(c.blocks, AgentBlock, id) == [] && (AgentKind, id) !in c.streamed
    requires forall i :: 0 <= i < |during| ==> OnlyStreams(during[i], id)
    requires forall i :: 0 <= i < |after| ==> !Mentions(after[i], id) && !after[i].Clear?
    requires Streamed(during, id) == "" || Streamed(during, id) == done.item.text
    ensures
      var end := ApplyAll(start, before + during + [Receive(done)] + after, l, Streaming);
      Texts(end.blocks, AgentBlock, id) == if done.item.text == "" then [] else [done.item.text]
  {
    var c := ApplyAll(start, before, l, Streaming);
    WhileStreaming(c, during, l, id);
    ApplyAllSplit(start, before, during, l, Streaming);
    var d := ApplyAll(c, during, l, Streaming);
    AgentStep(d, Receive(done), l, id);
    ApplyAllSplit(start, before + during, [Receive(done)], l, Streaming);
    assert [Receive(done)][..0] == [];
    ApplyAllSplit(start, before + during + [Receive(done)], after, l, Streaming);
    Unmentioned(Apply(d, Receive(done), l, Streaming), after, l, id);
  }

  /** An agent message is shown exactly once, whether or not it was streamed:
      with its id used by no other message, and its deltas, if there were any,
      adding up to its completed text, the transcript ends up with one block
      for it, holding that text. Prompts, clears and other items may come
      before, anything but a clear after; between its first delta and its
      completion there is neither, since both belong to one turn. */
  lemma ShownExactlyOnce(before: seq<ChatOp>, during: seq<ChatOp>, done: ThreadEvent, after: seq<ChatOp>, l: Layout,
      id: string)
    requires IsCompletionOf(done, id)
    requires forall i :: 0 <= i < |before| ==> !Mentions(before[i], id)
    requires forall i :: 0 <= i < |during| ==> OnlyStreams(during[i], id)
    requires forall i :: 0 <= i < |after| ==> !Mentions(after[i], id) && !after[i].Clear?
    requires Streamed(during, id) == "" || Streamed(during, id) == done.item.text
    ensures
      var end := ApplyAll(Chat([], {}, None, false), before + during + [Receive(done)] + after, l, Streaming);
      Texts(end.blocks, AgentBlock, id) == if done.item.text == "" then [] else [done.item.text]
  {
    var start := Chat([], {}, None, false);
    Unmentioned(start, before, l, id);
    ShownFrom(start, before, during, done, after, l, id);
  }
}
