/** The stateful renderer of crates/sdk/src/events/render.rs. */
module Render {
  import opened Sequences
  import opened Options
  import opened Threads

  datatype Kind =
    | AgentKind | UserKind | ReasoningKind | PlanKind | ToolKind
    | CommandKind | FileKind | StatusKind | ErrorKind | UnknownKind

  datatype RenderedItem = RenderedItem(kind: Kind, itemId: Option<string>, markdown: string, continuation: bool)

  function KindOf(k: OtherKind): Kind {
    match k
    case User => UserKind
    case TodoList => PlanKind
    case ToolCall => ToolKind
    case CommandExecution => CommandKind
    case FileChange => FileKind
    case Status => StatusKind
    case Error => ErrorKind
    case Unknown => UnknownKind
  }

  /** How the source formats a completed plan and completed reasoning. */
  datatype Layout = Layout(plan: string -> string, quote: string -> string)

  /** `render_thread_item` */
  function RenderItem(item: ThreadItem, l: Layout): RenderedItem {
    match item
    case AgentMessage(id, text, _) => RenderedItem(AgentKind, Some(id), text, false)
    case Plan(id, text) => RenderedItem(PlanKind, Some(id), l.plan(text), false)
    case Reasoning(id, text) => RenderedItem(ReasoningKind, Some(id), l.quote(text), false)
    case OtherItem(kind, id, markdown) => RenderedItem(KindOf(kind), id, markdown, false)
  }

  /** A delta is shown as it comes. */
  function RenderDelta(item: ThreadItem): RenderedItem {
    match item
    case AgentMessage(id, text, _) => RenderedItem(AgentKind, Some(id), text, true)
    case Plan(id, text) => RenderedItem(PlanKind, Some(id), text, true)
    case Reasoning(id, text) => RenderedItem(ReasoningKind, Some(id), text, true)
    case OtherItem(kind, id, markdown) => RenderedItem(KindOf(kind), id, markdown, true)
  }

  function OrUnknown(s: string): string {
    if s == "" then "unknown" else s
  }

  type Keys = set<(Kind, string)>

  /** The streamed set and the fragment shown after one event. */
  function RenderNext(streamed: Keys, e: ThreadEvent, l: Layout): (Keys, Option<RenderedItem>) {
    match e
    case ItemUpdated(item) =>
      var r := RenderDelta(item);
      if r.markdown == "" then (streamed, None)
      else (if r.itemId.Some? then streamed + {(r.kind, r.itemId.value)} else streamed, Some(r))
    case ItemCompleted(item) =>
      var r := RenderItem(item, l);
      var was := r.itemId.Some? && (r.kind, r.itemId.value) in streamed;
      (if r.itemId.Some? then streamed - {(r.kind, r.itemId.value)} else streamed,
       if !was && r.markdown != "" then Some(r) else None)
    case ErrorEvent(message) =>
      (streamed, Some(RenderedItem(ErrorKind, None, "**Error:** " + OrUnknown(message), false)))
    case TurnFailed(message) =>
      (streamed, Some(RenderedItem(ErrorKind, None, "**Turn failed:** " + OrUnknown(message), false)))
    case _ => (streamed, None)
  }

  class ThreadEventRenderer {
    var streamedItems: Keys

    constructor ()
      ensures streamedItems == {}
    {
      streamedItems := {};
    }

    method Render(e: ThreadEvent, l: Layout) returns (shown: Option<RenderedItem>)
      modifies this
      ensures (streamedItems, shown) == RenderNext(old(streamedItems), e, l)
    {
      shown := None;
      match e {
        case ItemUpdated(item) =>
          var r := RenderDelta(item);
          if r.markdown == "" { return; }
          if r.itemId.Some? {
            streamedItems := streamedItems + {(r.kind, r.itemId.value)};
          }
          shown := Some(r);
        case ItemCompleted(item) =>
          var r := RenderItem(item, l);
          var wasStreamed := false;
          if r.itemId.Some? {
            var key := (r.kind, r.itemId.value);
            wasStreamed := key in streamedItems;
            streamedItems := streamedItems - {key};
          }
          if !wasStreamed && r.markdown != "" { shown := Some(r); }
        case ErrorEvent(message) =>
          shown := Some(RenderedItem(ErrorKind, None, "**Error:** " + OrUnknown(message), false));
        case TurnFailed(message) =>
          shown := Some(RenderedItem(ErrorKind, None, "**Turn failed:** " + OrUnknown(message), false));
        case _ =>
      }
    }
  }

  // ----- whole streams

  function RenderAll(streamed: Keys, es: seq<ThreadEvent>, l: Layout): seq<RenderedItem>
    decreases |es|
  {
    if es == [] then []
    else
      var (next, shown) := RenderNext(streamed, es[0], l);
      (if shown.Some? then [shown.value] else []) + RenderAll(next, es[1..], l)
  }

  function KeysAfter(streamed: Keys, es: seq<ThreadEvent>, l: Layout): Keys
    decreases |es|
  {
    if es == [] then streamed else KeysAfter(RenderNext(streamed, es[0], l).0, es[1..], l)
  }

  /** No fragment shown is ever empty. */
  lemma {:induction false} FragmentsAreNonEmpty(streamed: Keys, es: seq<ThreadEvent>, l: Layout)
    ensures forall f :: f in RenderAll(streamed, es, l) ==> f.markdown != ""
    decreases |es|
  {
    if es != [] {
      FragmentsAreNonEmpty(RenderNext(streamed, es[0], l).0, es[1..], l);
    }
  }

  lemma {:induction false} RenderAllSplit(streamed: Keys, es: seq<ThreadEvent>, fs: seq<ThreadEvent>, l: Layout)
    ensures RenderAll(streamed, es + fs, l) == RenderAll(streamed, es, l) + RenderAll(KeysAfter(streamed, es, l), fs, l)
    ensures KeysAfter(streamed, es + fs, l) == KeysAfter(KeysAfter(streamed, es, l), fs, l)
    decreases |es|
  {
    if es == [] {
      assert es + fs == fs;
    } else {
      assert (es + fs)[1..] == es[1..] + fs;
      RenderAllSplit(RenderNext(streamed, es[0], l).0, es[1..], fs, l);
    }
  }

  // ----- one agent message

  predicate IsDeltaOf(e: ThreadEvent, id: string) {
    e.ItemUpdated? && e.item.AgentMessage? && e.item.id == id
  }

  predicate IsCompletionOf(e: ThreadEvent, id: string) {
    e.ItemCompleted? && e.item.AgentMessage? && e.item.id == id
  }

  predicate About(e: ThreadEvent, id: string) {
    IsDeltaOf(e, id) || IsCompletionOf(e, id)
  }

  /** The text streamed for `id`. */
  function DeltaText(es: seq<ThreadEvent>, id: string): string {
    if es == [] then "" else (if IsDeltaOf(es[0], id) then es[0].item.text else "") + DeltaText(es[1..], id)
  }

  predicate IsAgentFragment(f: RenderedItem, id: string) {
    f.kind == AgentKind && f.itemId == Some(id)
  }

  /** The text shown for `id`. */
  function ShownText(fs: seq<RenderedItem>, id: string): string {
    if fs == [] then "" else (if IsAgentFragment(fs[0], id) then fs[0].markdown else "") + ShownText(fs[1..], id)
  }

  lemma {:induction false} ShownTextAppend(fs: seq<RenderedItem>, gs: seq<RenderedItem>, id: string)
    ensures ShownText(fs + gs, id) == ShownText(fs, id) + ShownText(gs, id)
  {
    if fs == [] {
      assert fs + gs == gs;
    } else {
      assert (fs + gs)[1..] == fs[1..] + gs;
      ShownTextAppend(fs[1..], gs, id);
    }
  }

  /** Events about other items show nothing for `id` and leave its key be. */
  lemma OthersAreSilent(streamed: Keys, e: ThreadEvent, l: Layout, id: string)
    requires !About(e, id)
    ensures var (next, shown) := RenderNext(streamed, e, l);
      && ((AgentKind, id) in next <==> (AgentKind, id) in streamed)
      && (shown.Some? ==> !IsAgentFragment(shown.value, id))
  {
  }

  /** While `id` is only streamed, what is shown is its deltas, and its key is
      set exactly if there was any text. */
  lemma {:induction false} DeltasAreShown(streamed: Keys, es: seq<ThreadEvent>, l: Layout, id: string)
    requires forall i :: 0 <= i < |es| ==> !IsCompletionOf(es[i], id)
    ensures ShownText(RenderAll(streamed, es, l), id) == DeltaText(es, id)
    ensures (AgentKind, id) in KeysAfter(streamed, es, l) <==> (AgentKind, id) in streamed || DeltaText(es, id) != ""
    decreases |es|
  {
    if es != [] {
      var e := es[0];
      var (next, shown) := RenderNext(streamed, e, l);
      if !About(e, id) { OthersAreSilent(streamed, e, l, id); }
      DeltasAreShown(next, es[1..], l, id);
      var head: seq<RenderedItem> := if shown.Some? then [shown.value] else [];
      ShownTextAppend(head, RenderAll(next, es[1..], l), id);
      assert ShownText(head, id) == if IsDeltaOf(e, id) then e.item.text else "" by {
        if shown.Some? {
          var mine := IsAgentFragment(shown.value, id);
          assert ShownText([shown.value], id) == (if mine then shown.value.markdown else "") + ShownText([], id);
        }
      }
    }
  }

  function Fragments(shown: Option<RenderedItem>): seq<RenderedItem> {
    if shown.Some? then [shown.value] else []
  }

  lemma RenderFirst(streamed: Keys, e: ThreadEvent, es: seq<ThreadEvent>, l: Layout)
    ensures
      var (next, shown) := RenderNext(streamed, e, l);
      RenderAll(streamed, [e] + es, l) == Fragments(shown) + RenderAll(next, es, l)
  {
    assert ([e] + es)[1..] == es;
  }

  /** The completion shows the text unless it was streamed, and forgets the
      key. */
  lemma CompletionShows(streamed: Keys, done: ThreadEvent, l: Layout, id: string)
    requires IsCompletionOf(done, id)
    ensures
      var (next, shown) := RenderNext(streamed, done, l);
      && (AgentKind, id) !in next
      && ShownText(Fragments(shown), id) == if (AgentKind, id) in streamed then "" else done.item.text
  {
    var shown := RenderNext(streamed, done, l).1;
    if shown.Some? {
      assert [shown.value][1..] == [];
    }
  }

  /** Streaming is transparent: if `id` is streamed, possibly not at all, and
      then completed once with `text`, and whatever was streamed adds up to
      `text`, then exactly `text` is shown for it, once, among any other
      events. */
  lemma StreamingIsTransparent(streamed: Keys, before: seq<ThreadEvent>, done: ThreadEvent, after: seq<ThreadEvent>,
                               l: Layout, id: string)
    requires (AgentKind, id) !in streamed
    requires IsCompletionOf(done, id)
    requires forall i :: 0 <= i < |before| ==> !IsCompletionOf(before[i], id)
    requires forall i :: 0 <= i < |after| ==> !About(after[i], id)
    requires DeltaText(before, id) == "" || DeltaText(before, id) == done.item.text
    ensures ShownText(RenderAll(streamed, before + [done] + after, l), id) == done.item.text
  {
    var keys := KeysAfter(streamed, before, l);
    var (next, shown) := RenderNext(keys, done, l);
    DeltasAreShown(streamed, before, l, id);
    CompletionShows(keys, done, l, id);
    DeltasAreShown(next, after, l, id);
    NoDeltas(after, id);
    RenderFirst(keys, done, after, l);
    RenderAllSplit(streamed, before, [done] + after, l);
    Regroup(before, [done], after);
    ShownTextAppend(Fragments(shown), RenderAll(next, after, l), id);
    ShownTextAppend(RenderAll(streamed, before, l), RenderAll(keys, [done] + after, l), id);
  }

  lemma {:induction false} NoDeltas(es: seq<ThreadEvent>, id: string)
    requires forall i :: 0 <= i < |es| ==> !IsDeltaOf(es[i], id)
    ensures DeltaText(es, id) == ""
  {
    if es != [] {
      NoDeltas(es[1..], id);
    }
  }

  // ----- every kind of item over a whole stream

  /** The id an item is streamed and completed under, if it has one. */
  function IdOf(item: ThreadItem): Option<string> {
    match item
    case AgentMessage(id, _, _) => Some(id)
    case Plan(id, _) => Some(id)
    case Reasoning(id, _) => Some(id)
    case OtherItem(_, id, _) => id
  }

  /** The kind a fragment of the item has. */
  predicate IsOfKind(kind: Kind, item: ThreadItem) {
    match item
    case AgentMessage(_, _, _) => kind == AgentKind
    case Plan(_, _) => kind == PlanKind
    case Reasoning(_, _) => kind == ReasoningKind
    case OtherItem(User, _, _) => kind == UserKind
    case OtherItem(TodoList, _, _) => kind == PlanKind
    case OtherItem(ToolCall, _, _) => kind == ToolKind
    case OtherItem(CommandExecution, _, _) => kind == CommandKind
    case OtherItem(FileChange, _, _) => kind == FileKind
    case OtherItem(Status, _, _) => kind == StatusKind
    case OtherItem(Error, _, _) => kind == ErrorKind
    case OtherItem(Unknown, _, _) => kind == UnknownKind
  }

  /** The text of a delta as it comes. */
  function DeltaOf(item: ThreadItem): string {
    match item
    case AgentMessage(_, text, _) => text
    case Plan(_, text) => text
    case Reasoning(_, text) => text
    case OtherItem(_, _, markdown) => markdown
  }

  /** The text of a completed item: plans and reasoning are laid out. */
  function CompletedText(item: ThreadItem, l: Layout): string {
    match item
    case AgentMessage(_, text, _) => text
    case Plan(_, text) => l.plan(text)
    case Reasoning(_, text) => l.quote(text)
    case OtherItem(_, _, markdown) => markdown
  }

  /** A delta with text for the key. */
  predicate Streams(e: ThreadEvent, kind: Kind, id: string) {
    e.ItemUpdated? && IsOfKind(kind, e.item) && IdOf(e.item) == Some(id) && DeltaOf(e.item) != ""
  }

  predicate Completes(e: ThreadEvent, kind: Kind, id: string) {
    e.ItemCompleted? && IsOfKind(kind, e.item) && IdOf(e.item) == Some(id)
  }

  /** Event `i` is a delta with text for the key, not completed since. */
  predicate StreamedAt(es: seq<ThreadEvent>, i: nat, kind: Kind, id: string) {
    i < |es| && Streams(es[i], kind, id) && forall j :: i < j < |es| ==> !Completes(es[j], kind, id)
  }

  /** There was a delta with text for the key since its last completion. */
  predicate StreamedSince(es: seq<ThreadEvent>, kind: Kind, id: string) {
    exists i :: 0 <= i < |es| && StreamedAt(es, i, kind, id)
  }

  lemma StreamedAtAppend(es: seq<ThreadEvent>, e: ThreadEvent, i: nat, kind: Kind, id: string)
    requires i < |es|
    ensures StreamedAt(es + [e], i, kind, id) <==> StreamedAt(es, i, kind, id) && !Completes(e, kind, id)
  {
    var all := es + [e];
    assert all[|es|] == e && forall j :: 0 <= j < |es| ==> all[j] == es[j];
  }

  lemma StreamedSinceAppend(es: seq<ThreadEvent>, e: ThreadEvent, kind: Kind, id: string)
    ensures StreamedSince(es + [e], kind, id)
       <==> Streams(e, kind, id) || (StreamedSince(es, kind, id) && !Completes(e, kind, id))
  {
    var n := |es|;
    assert StreamedAt(es + [e], n, kind, id) <==> Streams(e, kind, id);
    forall i | 0 <= i < n
      ensures StreamedAt(es + [e], i, kind, id) <==> StreamedAt(es, i, kind, id) && !Completes(e, kind, id)
    {
      StreamedAtAppend(es, e, i, kind, id);
    }
  }

  lemma KindsAgree(item: ThreadItem, kind: Kind, l: Layout)
    ensures IsOfKind(kind, item) <==> RenderItem(item, l).kind == kind
    ensures RenderDelta(item).kind == RenderItem(item, l).kind
    ensures RenderDelta(item) == RenderedItem(RenderDelta(item).kind, IdOf(item), DeltaOf(item), true)
    ensures RenderItem(item, l) == RenderedItem(RenderItem(item, l).kind, IdOf(item), CompletedText(item, l), false)
  {
  }

  lemma KeyAfterOne(streamed: Keys, e: ThreadEvent, l: Layout, kind: Kind, id: string)
    ensures (kind, id) in RenderNext(streamed, e, l).0
       <==> Streams(e, kind, id) || ((kind, id) in streamed && !Completes(e, kind, id))
  {
    if e.ItemUpdated? || e.ItemCompleted? { KindsAgree(e.item, kind, l); }
  }

  lemma RenderLast(es: seq<ThreadEvent>, e: ThreadEvent, l: Layout)
    ensures
      var (next, shown) := RenderNext(KeysAfter({}, es, l), e, l);
      && RenderAll({}, es + [e], l) == RenderAll({}, es, l) + Fragments(shown)
      && KeysAfter({}, es + [e], l) == next
  {
    RenderAllSplit({}, es, [e], l);
    assert [e][1..] == [];
  }

  lemma {:induction false} KeysAreStreamed(es: seq<ThreadEvent>, l: Layout, kind: Kind, id: string)
    ensures (kind, id) in KeysAfter({}, es, l) <==> StreamedSince(es, kind, id)
  {
    if es != [] {
      var front, e := es[..|es| - 1], es[|es| - 1];
      assert es == front + [e];
      KeysAreStreamed(front, l, kind, id);
      RenderLast(front, e, l);
      KeyAfterOne(KeysAfter({}, front, l), e, l, kind, id);
      StreamedSinceAppend(front, e, kind, id);
    }
  }

  /** The completion of an item, of whatever kind, at any point of a stream: it
      shows nothing if a delta with text for it came since it was last
      completed, or if it has no text; otherwise it shows exactly its text, as
      a fragment of its own. */
  lemma CompletionShownIff(es: seq<ThreadEvent>, item: ThreadItem, l: Layout, kind: Kind)
    requires IsOfKind(kind, item)
    ensures
      var streamed := IdOf(item).Some? && StreamedSince(es, kind, IdOf(item).value);
      var text := CompletedText(item, l);
      RenderAll({}, es + [ItemCompleted(item)], l) ==
        if streamed || text == "" then RenderAll({}, es, l)
        else RenderAll({}, es, l) + [RenderedItem(kind, IdOf(item), text, false)]
  {
    RenderLast(es, ItemCompleted(item), l);
    KindsAgree(item, kind, l);
    if IdOf(item).Some? { KeysAreStreamed(es, l, kind, IdOf(item).value); }
    assert RenderAll({}, es, l) + [] == RenderAll({}, es, l);
  }

  /** A delta, of whatever kind and at any point, is shown as it comes, as a
      continuation, unless it is empty; other events show nothing, except that
      an error is reported. */
  lemma DeltaIsShown(es: seq<ThreadEvent>, e: ThreadEvent, l: Layout, kind: Kind)
    requires !e.ItemCompleted? && (e.ItemUpdated? ==> IsOfKind(kind, e.item))
    ensures
      RenderAll({}, es + [e], l) == RenderAll({}, es, l) +
        match e
        case ItemUpdated(item) =>
          if DeltaOf(item) == "" then [] else [RenderedItem(kind, IdOf(item), DeltaOf(item), true)]
        case ErrorEvent(message) =>
          [RenderedItem(ErrorKind, None, "**Error:** " + if message == "" then "unknown" else message, false)]
        case TurnFailed(message) =>
          [RenderedItem(ErrorKind, None, "**Turn failed:** " + if message == "" then "unknown" else message, false)]
        case _ => []
  {
    RenderLast(es, e, l);
    if e.ItemUpdated? { KindsAgree(e.item, kind, l); }
  }
}
