/** Human-readable output of a turn (crates/luna/src/output/mod.rs), with
    plain styling. */
module HumanOutput {
  import opened Options
  import opened Sequences
  import opened Threads
  import opened TurnRun
  import opened Render

  /** Kind and item id: what a fragment continues. */
  datatype Identity = Identity(kind: Kind, itemId: Option<string>)

  function IdentityOf(f: RenderedItem): Identity {
    Identity(f.kind, f.itemId)
  }

  function Prefix(f: RenderedItem): string {
    if !f.continuation then ""
    else if f.kind == ReasoningKind then "Reasoning: "
    else if f.kind == PlanKind then "Plan: "
    else ""
  }

  predicate EndsWithNewline(s: string) {
    s != "" && s[|s| - 1] == '\n'
  }

  // ----- the layout of whole blocks

  /** Fragments written without a break between them. */
  datatype Run = Run(head: RenderedItem, tail: seq<RenderedItem>) {
    function Items(): seq<RenderedItem> { [head] + tail }

    function Last(): RenderedItem { if tail == [] then head else tail[|tail| - 1] }

    function Extend(f: RenderedItem): Run { Run(head, tail + [f]) }

    /** What was written last ended a line. */
    predicate EndsLine() {
      EndsWithNewline(if tail == [] then Prefix(head) + head.markdown else tail[|tail| - 1].markdown)
    }
  }

  function Markdown(fs: seq<RenderedItem>): string {
    if fs == [] then "" else Markdown(fs[..|fs| - 1]) + fs[|fs| - 1].markdown
  }

  /** A run's block: its prefix once, then its text. */
  function BlockText(run: Run): string {
    Prefix(run.head) + run.head.markdown + Markdown(run.tail)
  }

  /** What goes between some runs and the next block: enough newlines to leave
      an empty line. */
  function Gap(runs: seq<Run>): string {
    if runs == [] then "" else if runs[|runs| - 1].EndsLine() then "\n" else "\n\n"
  }

  function Page(runs: seq<Run>): string {
    if runs == [] then ""
    else
      var above := runs[..|runs| - 1];
      Page(above) + Gap(above) + BlockText(runs[|runs| - 1])
  }

  /** The page with its last line ended. */
  function EndedPage(runs: seq<Run>): string {
    Page(runs) + if runs == [] || runs[|runs| - 1].EndsLine() then "" else "\n"
  }

  // ----- the runs of a stream of fragments

  predicate Joins(prev: RenderedItem, f: RenderedItem) {
    f.continuation && IdentityOf(prev) == IdentityOf(f)
  }

  /** Prompts are not echoed. */
  function Echoed(fs: seq<RenderedItem>): seq<RenderedItem> {
    if fs == [] then []
    else
      var last := fs[|fs| - 1];
      Echoed(fs[..|fs| - 1]) + if last.kind == UserKind then [] else [last]
  }

  function Flat(runs: seq<Run>): seq<RenderedItem> {
    if runs == [] then [] else Flat(runs[..|runs| - 1]) + runs[|runs| - 1].Items()
  }

  /** Every fragment of a run joins the one before it. */
  predicate Chained(run: Run) {
    forall i :: 0 <= i < |run.tail| ==> Joins(Run(run.head, run.tail[..i]).Last(), run.tail[i])
  }

  /** Runs that cannot be longer: the next one's head does not join. */
  predicate Maximal(runs: seq<Run>) {
    && (forall i :: 0 <= i < |runs| ==> Chained(runs[i]))
    && (forall i :: 0 <= i < |runs| - 1 ==> !Joins(runs[i].Last(), runs[i + 1].head))
  }

  function Add(runs: seq<Run>, f: RenderedItem): seq<Run> {
    var k := |runs| - 1;
    if k >= 0 && Joins(runs[k].Last(), f) then runs[..k] + [runs[k].Extend(f)] else runs + [Run(f, [])]
  }

  function Runs(fs: seq<RenderedItem>): seq<Run> {
    if fs == [] then [] else Add(Runs(fs[..|fs| - 1]), fs[|fs| - 1])
  }

  lemma FlatLast(front: seq<Run>, run: Run)
    ensures Flat(front + [run]) == Flat(front) + run.Items()
  {
    assert (front + [run])[..|front|] == front;
  }

  lemma AddKeepsFlat(runs: seq<Run>, f: RenderedItem)
    ensures Flat(Add(runs, f)) == Flat(runs) + [f]
  {
    var k := |runs| - 1;
    if k >= 0 && Joins(runs[k].Last(), f) {
      assert runs == runs[..k] + [runs[k]];
      ExtendKeepsCut(runs[..k], runs[k], f);
    } else {
      FlatLast(runs, Run(f, []));
    }
  }

  lemma AddKeepsMaximal(runs: seq<Run>, f: RenderedItem)
    requires Maximal(runs)
    ensures Maximal(Add(runs, f))
  {
    var k := |runs| - 1;
    if k >= 0 && Joins(runs[k].Last(), f) {
      assert runs == runs[..k] + [runs[k]];
      ExtendKeepsCut(runs[..k], runs[k], f);
    } else {
      MaximalLast(runs, Run(f, []));
    }
  }

  /** The runs of some fragments are those fragments. */
  lemma {:induction false} RunsAreTheFragments(fs: seq<RenderedItem>)
    ensures Flat(Runs(fs)) == fs
  {
    if fs != [] {
      var init, f := fs[..|fs| - 1], fs[|fs| - 1];
      RunsAreTheFragments(init);
      assert fs == init + [f];
      OneMoreFragment(init, f);
    }
  }

  lemma {:induction false} OneMoreFragment(fs: seq<RenderedItem>, f: RenderedItem)
    ensures Flat(Runs(fs + [f])) == Flat(Runs(fs)) + [f]
  {
    RunsOfLast(fs, f);
    AddKeepsFlat(Runs(fs), f);
  }

  /** They are cut only where they must be. */
  lemma {:induction false} RunsAreMaximal(fs: seq<RenderedItem>)
    ensures Maximal(Runs(fs))
  {
    if fs != [] {
      RunsAreMaximal(fs[..|fs| - 1]);
      AddKeepsMaximal(Runs(fs[..|fs| - 1]), fs[|fs| - 1]);
    }
  }

  lemma ExtendKeepsCut(front: seq<Run>, run: Run, f: RenderedItem)
    ensures Flat(front + [run.Extend(f)]) == Flat(front + [run]) + [f]
    ensures Maximal(front + [run.Extend(f)]) <==> Maximal(front + [run]) && Joins(run.Last(), f)
  {
    FlatLast(front, run);
    FlatLast(front, run.Extend(f));
    assert run.Extend(f).Items() == run.Items() + [f];
    assert Flat(front) + (run.Items() + [f]) == (Flat(front) + run.Items()) + [f];
    MaximalLast(front, run);
    MaximalLast(front, run.Extend(f));
    ExtendChained(run, f);
  }

  lemma MaximalLast(front: seq<Run>, run: Run)
    ensures Maximal(front + [run]) <==>
            Maximal(front) && Chained(run) && (front != [] ==> !Joins(front[|front| - 1].Last(), run.head))
  {
    var runs, n := front + [run], |front|;
    assert forall i :: 0 <= i < n ==> runs[i] == front[i];
    if Maximal(runs) {
      assert Chained(runs[n]);
      assert forall i :: 0 <= i < n - 1 ==> !Joins(runs[i].Last(), runs[i + 1].head);
      if front != [] { assert !Joins(runs[n - 1].Last(), runs[n - 1 + 1].head); }
    }
  }

  lemma ExtendChained(run: Run, f: RenderedItem)
    ensures Chained(run.Extend(f)) <==> Chained(run) && Joins(run.Last(), f)
  {
    var longer := run.Extend(f);
    var n := |run.tail|;
    assert longer.tail[..n] == run.tail && Run(run.head, run.tail) == run && longer.tail[n] == f;
    assert forall i :: 0 <= i < n ==> longer.tail[..i] == run.tail[..i] && longer.tail[i] == run.tail[i];
    if Chained(longer) {
      forall i | 0 <= i < n ensures Joins(Run(run.head, run.tail[..i]).Last(), run.tail[i]) {
        assert Joins(Run(longer.head, longer.tail[..i]).Last(), longer.tail[i]);
      }
      assert Joins(Run(longer.head, longer.tail[..n]).Last(), longer.tail[n]);
    }
  }

  /** There is only one such cut. */
  lemma {:induction false} MaximalRunsAreUnique(runs: seq<Run>)
    requires Maximal(runs)
    ensures Runs(Flat(runs)) == runs
    decreases |Flat(runs)|
  {
    if runs != [] {
      var front, last := runs[..|runs| - 1], runs[|runs| - 1];
      assert runs == front + [last];
      if last.tail == [] {
        HeadAdded(front, last);
        MaximalRunsAreUnique(front);
        RunsOfLast(Flat(front), last.head);
      } else {
        var shorter, f := TailAdded(front, last);
        MaximalRunsAreUnique(front + [shorter]);
        RunsOfLast(Flat(front + [shorter]), f);
      }
    }
  }

  lemma HeadAdded(front: seq<Run>, last: Run)
    requires Maximal(front + [last]) && last.tail == []
    ensures Maximal(front) && Add(front, last.head) == front + [last]
    ensures Flat(front + [last]) == Flat(front) + [last.head]
  {
    FlatLast(front, last);
    MaximalLast(front, last);
  }

  lemma TailAdded(front: seq<Run>, last: Run) returns (shorter: Run, f: RenderedItem)
    requires Maximal(front + [last]) && last.tail != []
    ensures Maximal(front + [shorter]) && Add(front + [shorter], f) == front + [last]
    ensures Flat(front + [last]) == Flat(front + [shorter]) + [f]
  {
    var n := |last.tail|;
    shorter, f := Run(last.head, last.tail[..n - 1]), last.tail[n - 1];
    assert last == shorter.Extend(f);
    ExtendKeepsCut(front, shorter, f);
    assert (front + [shorter])[..|front|] == front;
  }

  lemma RunsOfLast(fs: seq<RenderedItem>, f: RenderedItem)
    ensures Runs(fs + [f]) == Add(Runs(fs), f)
  {
    assert (fs + [f])[..|fs|] == fs;
  }

  // ----- the writer

  /** The output so far is the layout of the fragments `fs`. */
  predicate Showing(written: string, currentItem: Option<Identity>, printedAny: bool, endedWithNewline: bool,
                    runs: seq<Run>)
  {
    if runs == [] then written == "" && currentItem == None && !printedAny
    else printedAny && ShowingSome(written, currentItem, endedWithNewline, runs)
  }

  predicate ShowingSome(written: string, currentItem: Option<Identity>, endedWithNewline: bool, runs: seq<Run>)
    requires runs != []
  {
    var last := runs[|runs| - 1];
    written == Page(runs) && endedWithNewline == last.EndsLine() && currentItem == Some(IdentityOf(last.Last()))
  }

  method Prefixed(f: RenderedItem, same: bool) returns (markdown: string)
    ensures markdown == if same then f.markdown else Prefix(f) + f.markdown
  {
    assert "" + f.markdown == f.markdown;
    markdown := f.markdown;
    if f.continuation && !same {
      if f.kind == ReasoningKind {
        markdown := "Reasoning: " + markdown;
      } else if f.kind == PlanKind {
        markdown := "Plan: " + markdown;
      }
    }
  }

  lemma {:induction false} JoinedShows(runs: seq<Run>, f: RenderedItem)
    requires runs != [] && Joins(runs[|runs| - 1].Last(), f)
    ensures Add(runs, f) != []
    ensures ShowingSome(Page(runs) + f.markdown, Some(IdentityOf(f)), EndsWithNewline(f.markdown), Add(runs, f))
  {
    PageJoins(runs, f);
  }

  lemma {:induction false} StartedShows(runs: seq<Run>, f: RenderedItem)
    requires runs == [] || !Joins(runs[|runs| - 1].Last(), f)
    ensures Add(runs, f) != []
    ensures
      var text := Prefix(f) + f.markdown;
      ShowingSome(Page(runs) + Gap(runs) + text, Some(IdentityOf(f)), EndsWithNewline(text), Add(runs, f))
  {
    PageStarts(runs, f);
  }

  lemma TwoLines(s: string)
    ensures s + "\n" + "\n" == s + "\n\n"
  {
    Regroup(s, "\n", "\n");
  }

  class Output {
    var written: string
    var currentItem: Option<Identity>
    var printedAny: bool
    var endedWithNewline: bool

    constructor ()
      ensures Shows([]) && written == ""
    {
      written, currentItem, printedAny, endedWithNewline := "", None, false, false;
    }

    ghost predicate Shows(fs: seq<RenderedItem>)
      reads this
    {
      Showing(written, currentItem, printedAny, endedWithNewline, Runs(fs))
    }

    method SeparateBlocks(ghost fs: seq<RenderedItem>)
      requires Shows(fs)
      modifies this
      ensures written == old(written) + Gap(Runs(fs))
      ensures printedAny == old(printedAny) && currentItem == old(currentItem)
    {
      if !printedAny { return; }
      TwoLines(written);
      if !endedWithNewline {
        written := written + "\n";
      }
      written := written + "\n";
      endedWithNewline := true;
    }

    /** The end of `write_fragment`. */
    method Put(identity: Identity, markdown: string)
      modifies this
      ensures written == old(written) + markdown && currentItem == Some(identity)
      ensures printedAny && endedWithNewline == EndsWithNewline(markdown)
    {
      written := written + markdown;
      printedAny := true;
      endedWithNewline := EndsWithNewline(markdown);
      currentItem := Some(identity);
    }

    /** A fragment, with text or without, is laid out where the batch layout
        has it. */
    method WriteFragment(f: RenderedItem, ghost fs: seq<RenderedItem>)
      requires Shows(fs)
      modifies this
      ensures Shows(if f.kind == UserKind then fs else fs + [f])
    {
      if f.kind == UserKind { return; }
      var identity := IdentityOf(f);
      var same := f.continuation && currentItem == Some(identity);
      RunsOfLast(fs, f);
      if same {
        JoinedShows(Runs(fs), f);
      } else {
        StartedShows(Runs(fs), f);
        SeparateBlocks(fs);
      }
      var markdown := Prefixed(f, same);
      Put(identity, markdown);
    }

    method Finish(ghost fs: seq<RenderedItem>)
      requires Shows(fs)
      modifies this
      ensures written == EndedPage(Runs(fs)) && (written == "" || EndsWithNewline(written))
    {
      if printedAny && endedWithNewline { PageEndsLine(Runs(fs)); }
      if printedAny && !endedWithNewline {
        written := written + "\n";
        endedWithNewline := true;
      }
    }
  }

  /** If what was written last ended a line, the page ends with a newline. */
  lemma PageEndsLine(runs: seq<Run>)
    requires runs != [] && runs[|runs| - 1].EndsLine()
    ensures EndsWithNewline(Page(runs))
  {
    var front, run := runs[..|runs| - 1], runs[|runs| - 1];
    if run.tail != [] {
      var init := run.tail[..|run.tail| - 1];
      SameEnd(Markdown(init), run.Last().markdown);
      SameEnd(Prefix(run.head) + run.head.markdown, Markdown(run.tail));
    } else {
      assert BlockText(run) == Prefix(run.head) + run.head.markdown;
    }
    SameEnd(Page(front) + Gap(front), BlockText(run));
  }

  lemma SameEnd(above: string, text: string)
    requires EndsWithNewline(text)
    ensures EndsWithNewline(above + text)
  {
  }

  lemma PageLast(front: seq<Run>, run: Run)
    ensures Page(front + [run]) == Page(front) + Gap(front) + BlockText(run)
  {
    assert (front + [run])[..|front|] == front;
  }

  lemma {:induction false} PageJoins(runs: seq<Run>, f: RenderedItem)
    requires runs != []
    ensures Page(runs[..|runs| - 1] + [runs[|runs| - 1].Extend(f)]) == Page(runs) + f.markdown
  {
    var front, run := runs[..|runs| - 1], runs[|runs| - 1];
    PageLast(front, run.Extend(f));
    BlockExtends(run, f);
    Regroup(Page(front) + Gap(front), BlockText(run), f.markdown);
  }

  lemma {:induction false} PageStarts(runs: seq<Run>, f: RenderedItem)
    ensures Page(runs + [Run(f, [])]) == Page(runs) + Gap(runs) + (Prefix(f) + f.markdown)
  {
    PageLast(runs, Run(f, []));
    assert BlockText(Run(f, [])) == Prefix(f) + f.markdown;
  }

  lemma BlockExtends(run: Run, f: RenderedItem)
    ensures BlockText(run.Extend(f)) == BlockText(run) + f.markdown
  {
    assert (run.tail + [f])[..|run.tail|] == run.tail;
    var start := Prefix(run.head) + run.head.markdown;
    assert start + (Markdown(run.tail) + f.markdown) == (start + Markdown(run.tail)) + f.markdown;
  }

  // ----- what the layout looks like

  /** The page is made of what is above block `k`, with a gap that ends in an
      empty line unless the block is the first, the block, and what is below. */
  ghost predicate StandsBelow(runs: seq<Run>, k: nat)
    requires k < |runs|
  {
    && (exists below :: Page(runs) == UpTo(runs, k) + below)
    && (if k == 0 then Page(runs[..k]) + Gap(runs[..k]) == "" else EndsInEmptyLine(Page(runs[..k]) + Gap(runs[..k])))
  }

  predicate EndsInEmptyLine(s: string) {
    |s| >= 2 && s[|s| - 2..] == "\n\n"
  }

  lemma GapLeavesEmptyLine(runs: seq<Run>)
    requires runs != []
    ensures EndsInEmptyLine(Page(runs) + Gap(runs))
  {
    if runs[|runs| - 1].EndsLine() {
      PageEndsLine(runs);
      OneMoreNewline(Page(runs));
    } else {
      TwoNewlines(Page(runs));
    }
  }

  lemma OneMoreNewline(s: string)
    requires EndsWithNewline(s)
    ensures EndsInEmptyLine(s + "\n")
  {
  }

  lemma TwoNewlines(s: string)
    ensures EndsInEmptyLine(s + "\n\n")
  {
  }

  function UpTo(runs: seq<Run>, k: nat): string
    requires k < |runs|
  {
    Page(runs[..k]) + Gap(runs[..k]) + BlockText(runs[k])
  }

  lemma {:induction false} PageAt(runs: seq<Run>, k: nat) returns (below: string)
    requires k < |runs|
    ensures Page(runs) == UpTo(runs, k) + below
    decreases |runs|
  {
    var front, last := runs[..|runs| - 1], runs[|runs| - 1];
    if k == |front| {
      below := "";
      assert UpTo(runs, k) + "" == UpTo(runs, k);
    } else {
      var more := PageAt(front, k);
      Prefixes(runs, k, |front|);
      below := more + Gap(front) + BlockText(last);
      Regroup(UpTo(runs, k), more, Gap(front));
      Regroup(UpTo(runs, k), more + Gap(front), BlockText(last));
    }
  }

  /** Every block stands whole, and every block but the first right after an
      empty line. */
  lemma BlocksAreSeparated(runs: seq<Run>, k: nat)
    requires k < |runs|
    ensures StandsBelow(runs, k)
  {
    var below := PageAt(runs, k);
    if k > 0 { GapLeavesEmptyLine(runs[..k]); }
  }

  predicate AllText(fs: seq<RenderedItem>) {
    forall i :: 0 <= i < |fs| ==> fs[i].markdown != ""
  }

  lemma {:induction false} RunsHaveText(fs: seq<RenderedItem>)
    requires AllText(fs)
    ensures forall i :: 0 <= i < |Runs(fs)| ==> Runs(fs)[i].head.markdown != ""
  {
    if fs != [] {
      RunsHaveText(fs[..|fs| - 1]);
    }
  }

  lemma BlockHasText(run: Run)
    requires run.head.markdown != ""
    ensures BlockText(run) != ""
  {
    assert |BlockText(run)| >= |run.head.markdown|;
  }

  // ----- what each fragment adds to what is on the page

  /** The fragment continues the one before it. */
  predicate Continues(fs: seq<RenderedItem>, f: RenderedItem) {
    && f.continuation && fs != []
    && fs[|fs| - 1].kind == f.kind && fs[|fs| - 1].itemId == f.itemId
  }

  /** What starts a streamed block. */
  function Label(f: RenderedItem): string {
    match (f.continuation, f.kind)
    case (true, ReasoningKind) => "Reasoning: "
    case (true, PlanKind) => "Plan: "
    case _ => ""
  }

  /** What separates a block from the page above it: exactly enough for an
      empty line. */
  function Separation(page: string): string {
    if page == "" then "" else if page[|page| - 1] == '\n' then "\n" else "\n\n"
  }

  lemma LastOfRuns(fs: seq<RenderedItem>)
    requires fs != []
    ensures Runs(fs) != [] && Runs(fs)[|Runs(fs)| - 1].Last() == fs[|fs| - 1]
  {
  }

  lemma JoinedEnds(runs: seq<Run>, f: RenderedItem)
    requires runs != [] && f.markdown != ""
    ensures
      var page := Page(runs[..|runs| - 1] + [runs[|runs| - 1].Extend(f)]);
      page != "" && (EndsWithNewline(page) <==> EndsWithNewline(f.markdown))
  {
    PageJoins(runs, f);
    SameLastChar(Page(runs), f.markdown);
  }

  lemma StartedEnds(runs: seq<Run>, f: RenderedItem)
    requires f.markdown != ""
    ensures
      var page := Page(runs + [Run(f, [])]);
      page != "" && (EndsWithNewline(page) <==> EndsWithNewline(Prefix(f) + f.markdown))
  {
    PageStarts(runs, f);
    SameLastChar(Page(runs) + Gap(runs), Prefix(f) + f.markdown);
  }

  lemma SameLastChar(above: string, text: string)
    requires text != ""
    ensures above + text != "" && (EndsWithNewline(above + text) <==> EndsWithNewline(text))
  {
  }

  /** The last run ends its line exactly if the page does. */
  lemma PageEndsIff(fs: seq<RenderedItem>)
    requires AllText(fs) && fs != []
    ensures
      var runs := Runs(fs);
      runs != [] && Page(runs) != "" && (runs[|runs| - 1].EndsLine() <==> EndsWithNewline(Page(runs)))
  {
    var runs, f := Runs(fs[..|fs| - 1]), fs[|fs| - 1];
    assert f.markdown != "";
    if runs != [] && Joins(runs[|runs| - 1].Last(), f) {
      JoinedEnds(runs, f);
    } else {
      StartedEnds(runs, f);
    }
  }

  lemma GapIs(fs: seq<RenderedItem>)
    requires AllText(fs)
    ensures Gap(Runs(fs)) == Separation(Page(Runs(fs)))
  {
    if fs != [] { PageEndsIff(fs); }
  }

  /** One more fragment: one that continues the last adds just its text; any
      other is separated from the page above it, labelled if it is streamed,
      and then written. */
  lemma {:induction false} FragmentAdds(fs: seq<RenderedItem>, f: RenderedItem)
    requires AllText(fs)
    ensures
      var page := Page(Runs(fs));
      Page(Runs(fs + [f])) ==
        if Continues(fs, f) then page + f.markdown
        else page + Separation(page) + (Label(f) + f.markdown)
  {
    AddedRuns(fs, f);
    GapIs(fs);
    LabelIs(f);
    if Continues(fs, f) { PageJoins(Runs(fs), f); } else { PageStarts(Runs(fs), f); }
  }

  lemma LabelIs(f: RenderedItem)
    ensures Prefix(f) == Label(f)
  {
  }

  lemma AddedRuns(fs: seq<RenderedItem>, f: RenderedItem)
    ensures
      var runs := Runs(fs);
      if Continues(fs, f) then
        runs != [] && Runs(fs + [f]) == runs[..|runs| - 1] + [runs[|runs| - 1].Extend(f)]
      else Runs(fs + [f]) == runs + [Run(f, [])]
  {
    RunsOfLast(fs, f);
    if fs != [] { LastOfRuns(fs); }
  }

  /** The end of a turn adds a newline only where one is missing. */
  lemma EndedPageIs(fs: seq<RenderedItem>)
    requires AllText(fs)
    ensures
      var page := Page(Runs(fs));
      EndedPage(Runs(fs)) == page + if page == "" || page[|page| - 1] == '\n' then "" else "\n"
  {
    if fs != [] { PageEndsIff(fs); }
  }

  // ----- a whole turn

  datatype HumanResult = Printed | StreamFailed | TurnFailure(message: string) | ClosedEarly

  function Events(ds: seq<Delivery>): (es: seq<ThreadEvent>)
    requires forall i :: 0 <= i < |ds| ==> ds[i].Event?
    ensures |es| == |ds| && forall i :: 0 <= i < |ds| ==> es[i] == ds[i].event
  {
    seq(|ds|, i requires 0 <= i < |ds| => ds[i].event)
  }

  /** The events of a turn up to and including the one that stops reading. */
  function ReadEvents(ds: seq<Delivery>): seq<ThreadEvent> {
    var n := FirstStop(ds);
    Events(ds[..n]) + if n < |ds| && ds[n].Event? then [ds[n].event] else []
  }

  lemma MoreEvents(ds: seq<Delivery>, i: nat)
    requires i < |ds| && forall k :: 0 <= k <= i ==> ds[k].Event?
    ensures Events(ds[..i + 1]) == Events(ds[..i]) + [ds[i].event]
  {
  }

  function TurnPage(ds: seq<Delivery>, l: Layout): string {
    Page(Runs(FragmentsOf(ReadEvents(ds), l)))
  }

  /** `stream_human_events`: what is on the output is the page of the turn's
      fragments. It is finished with a newline unless the stream breaks off. */
  method StreamHumanEvents(ds: seq<Delivery>, l: Layout) returns (written: string, result: HumanResult)
    ensures
      var n := FirstStop(ds);
      if n == |ds| then result == ClosedEarly && written == TurnPage(ds, l)
      else if ds[n].ClosedError? then result == StreamFailed && written == TurnPage(ds, l)
      else
        && written == EndedPage(Runs(FragmentsOf(ReadEvents(ds), l)))
        && result == match ds[n].event
                     case TurnFailed(message) => TurnFailure("turn failed: " + message)
                     case ErrorEvent(message) => TurnFailure("stream error: " + message)
                     case _ => Printed
  {
    var output := new Output();
    var renderer := new ThreadEventRenderer();
    var i := 0;
    ghost var es: seq<ThreadEvent> := [];
    while i < |ds| && !Stops(ds[i])
      invariant i <= FirstStop(ds) && es == Events(ds[..i])
      invariant fresh(output) && fresh(renderer)
      invariant renderer.streamedItems == KeysAfter({}, es, l)
      invariant output.Shows(FragmentsOf(es, l))
    {
      PrintEvent(output, renderer, es, ds[i].event, l);
      MoreEvents(ds, i);
      es := es + [ds[i].event];
      i := i + 1;
    }
    assert i == FirstStop(ds);
    if i < |ds| && ds[i].Event? {
      var e := ds[i].event;
      PrintEvent(output, renderer, es, e, l);
      assert ReadEvents(ds) == es + [e];
      output.Finish(FragmentsOf(es + [e], l));
      result := if e.TurnFailed? then TurnFailure("turn failed: " + e.message)
                else if e.ErrorEvent? then TurnFailure("stream error: " + e.message)
                else Printed;
    } else {
      assert ReadEvents(ds) == es;
      result := if i == |ds| then ClosedEarly else StreamFailed;
    }
    written := output.written;
  }

  function FragmentsOf(es: seq<ThreadEvent>, l: Layout): seq<RenderedItem> {
    Echoed(RenderAll({}, es, l))
  }

  /** One more event adds at most one fragment, which has text. */
  lemma OneMoreEvent(es: seq<ThreadEvent>, e: ThreadEvent, l: Layout)
    ensures
      var (next, shown) := RenderNext(KeysAfter({}, es, l), e, l);
      && KeysAfter({}, es + [e], l) == next
      && (shown.Some? ==> shown.value.markdown != "")
      && FragmentsOf(es + [e], l) ==
           if shown.Some? && shown.value.kind != UserKind then FragmentsOf(es, l) + [shown.value]
               else FragmentsOf(es, l)
  {
    var fs, keys := RenderAll({}, es, l), KeysAfter({}, es, l);
    var (next, shown) := RenderNext(keys, e, l);
    RenderAllSplit({}, es, [e], l);
    assert [e][1..] == [];
    FragmentsAreNonEmpty(keys, [e], l);
    if shown.Some? {
      assert RenderAll(keys, [e], l) == [shown.value] && shown.value in RenderAll(keys, [e], l);
      assert (fs + [shown.value])[..|fs|] == fs;
      assert Echoed(fs) + [] == Echoed(fs);
    } else {
      assert fs + [] == fs;
    }
  }

  /** The user's own items add nothing to the page; every other event adds
      what the renderer shows for it. */
  lemma EventAdds(es: seq<ThreadEvent>, e: ThreadEvent, l: Layout)
    ensures
      var before, after := RenderAll({}, es, l), RenderAll({}, es + [e], l);
      && (after == before ==> FragmentsOf(es + [e], l) == FragmentsOf(es, l))
      && forall f :: after == before + [f] ==>
           FragmentsOf(es + [e], l) == if f.kind == UserKind then FragmentsOf(es, l) else FragmentsOf(es, l) + [f]
  {
    forall f | RenderAll({}, es + [e], l) == RenderAll({}, es, l) + [f]
      ensures
        FragmentsOf(es + [e], l) == if f.kind == UserKind then FragmentsOf(es, l) else FragmentsOf(es, l) + [f]
    {
      EchoedLast(RenderAll({}, es, l), f);
    }
  }

  lemma EchoedLast(fs: seq<RenderedItem>, f: RenderedItem)
    ensures Echoed(fs + [f]) == if f.kind == UserKind then Echoed(fs) else Echoed(fs) + [f]
  {
    assert (fs + [f])[..|fs|] == fs;
    assert Echoed(fs) + [] == Echoed(fs);
  }

  /** One event of the loop in `stream_human_events`. */
  method PrintEvent(output: Output, renderer: ThreadEventRenderer, ghost es: seq<ThreadEvent>, e: ThreadEvent,
      l: Layout)
    requires renderer.streamedItems == KeysAfter({}, es, l)
    requires output.Shows(FragmentsOf(es, l))
    modifies output, renderer
    ensures renderer.streamedItems == KeysAfter({}, es + [e], l)
    ensures output.Shows(FragmentsOf(es + [e], l))
  {
    OneMoreEvent(es, e, l);
    var shown := renderer.Render(e, l);
    if shown.Some? {
      output.WriteFragment(shown.value, FragmentsOf(es, l));
    }
  }

  lemma {:induction false} EchoedHasText(fs: seq<RenderedItem>)
    requires forall f :: f in fs ==> f.markdown != ""
    ensures AllText(Echoed(fs))
  {
    if fs != [] {
      EchoedHasText(fs[..|fs| - 1]);
    }
  }

  /** Whatever a turn delivers, no block of its page is empty, and every block
      but the first stands right after an empty line. */
  lemma TurnBlocksAreSeparated(ds: seq<Delivery>, l: Layout, k: nat)
    requires k < |Runs(FragmentsOf(ReadEvents(ds), l))|
    ensures var runs := Runs(FragmentsOf(ReadEvents(ds), l)); StandsBelow(runs, k) && BlockText(runs[k]) != ""
  {
    var fs := FragmentsOf(ReadEvents(ds), l);
    FragmentsAreNonEmpty({}, ReadEvents(ds), l);
    EchoedHasText(RenderAll({}, ReadEvents(ds), l));
    RunsHaveText(fs);
    BlockHasText(Runs(fs)[k]);
    BlocksAreSeparated(Runs(fs), k);
  }
}
