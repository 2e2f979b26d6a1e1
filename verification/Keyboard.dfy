/** The key handling of an idle chat: editing, suggestions and history. */
module Keyboard {
  import opened Options
  import opened Words
  import opened Utf8
  import opened InputLine

  datatype Key =
    | Enter | Typed(c: char) | BackspaceKey | DeleteKey | LeftKey | RightKey | HomeKey | EndKey
    | Tab | BackTab | Esc | Up | Down
    | CtrlC | CtrlD | CtrlL | CtrlU
    | Pasted(pasted: string)
    | OtherKey

  datatype Action = NoAction | Quit | Submit(input: string)

  /** `suggestions_for`, down to the replacements it offers for an input. */
  type Suggest = string -> seq<string>

  datatype Editor = Editor(
    input: Zipper,
    history: seq<string>,
    cursor: Option<nat>,
    draft: string,
    dismissed: bool,
    selected: nat)

  predicate Valid(c: Editor) {
    c.cursor.Some? ==> c.cursor.value < |c.history|
  }

  /** `suggestions`, in a chat that is not busy */
  function Suggestions(c: Editor, sg: Suggest): seq<string> {
    if c.dismissed then [] else sg(c.input.Text())
  }

  /** `after_input_edit` after the input became `z` */
  function Edited(c: Editor, z: Zipper): Editor {
    c.(input := z, dismissed := false, selected := 0, cursor := None)
  }

  function HistoryUp(c: Editor): Editor
    requires Valid(c)
  {
    if c.history == [] then c
    else
      var index := if c.cursor.None? then |c.history| - 1 else if c.cursor.value == 0 then 0 else c.cursor.value - 1;
      c.(cursor := Some(index), draft := if c.cursor.None? then c.input.Text() else c.draft,
         input := Zipper(c.history[index], ""), dismissed := true)
  }

  function HistoryDown(c: Editor): Editor
    requires Valid(c)
  {
    if c.cursor.None? then c
    else if c.cursor.value + 1 < |c.history| then
      c.(cursor := Some(c.cursor.value + 1), input := Zipper(c.history[c.cursor.value + 1], ""), dismissed := true)
    else
      c.(cursor := None, input := Zipper(c.draft, ""), draft := "", dismissed := true)
  }

  function SelectPrevious(c: Editor, sg: Suggest): Editor {
    var count := |Suggestions(c, sg)|;
    if count == 0 then c else c.(selected := if c.selected > 0 then c.selected - 1 else count - 1)
  }

  function SelectNext(c: Editor, sg: Suggest): Editor {
    var count := |Suggestions(c, sg)|;
    if count == 0 then c else c.(selected := (c.selected + 1) % count)
  }

  function Accept(c: Editor, sg: Suggest): Editor {
    var offered := Suggestions(c, sg);
    if c.selected >= |offered| then c
    else c.(input := Zipper(offered[c.selected], ""), dismissed := false, selected := 0)
  }

  /** What a key does: `handle_idle_key`, and what the idle loop does with a
      paste. */
  function Press(c: Editor, k: Key, sg: Suggest): (Editor, Action)
    requires Valid(c)
  {
    var z := c.input;
    var none := Zipper("", "");
    match k
    case CtrlD => (c, if z.Text() == "" then Quit else NoAction)
    case CtrlC => if z.Text() == "" then (c, Quit) else (Edited(c, none), NoAction)
    case CtrlL => (c, NoAction)
    case CtrlU => (Edited(c, none), NoAction)
    case Enter =>
      var history := if Blank(z.Text()) then c.history else c.history + [z.Text()];
      (Edited(c.(history := history, draft := ""), none), Submit(z.Text()))
    case Typed(ch) => (Edited(c, z.Insert([ch])), NoAction)
    case BackspaceKey => (Edited(c, z.Backspace()), NoAction)
    case DeleteKey => (Edited(c, z.Delete()), NoAction)
    case LeftKey => (c.(input := z.MoveLeft()), NoAction)
    case RightKey => (c.(input := z.MoveRight()), NoAction)
    case HomeKey => (c.(input := z.Home()), NoAction)
    case EndKey => (c.(input := z.End()), NoAction)
    case Tab => (Accept(c, sg), NoAction)
    case BackTab => (SelectPrevious(c, sg), NoAction)
    case Esc => (c.(dismissed := true, selected := 0), NoAction)
    case Up => (if Suggestions(c, sg) != [] then SelectPrevious(c, sg) else HistoryUp(c), NoAction)
    case Down => (if Suggestions(c, sg) != [] then SelectNext(c, sg) else HistoryDown(c), NoAction)
    case Pasted(text) => (c.(input := z.Insert(SingleLine(text))), NoAction)
    case OtherKey => (c, NoAction)
  }

  /** The chat after it is drawn: a selection beyond the suggestions on display
      goes back to the first. */
  function Drawn(c: Editor, sg: Suggest): Editor {
    if c.selected >= |Suggestions(c, sg)| then c.(selected := 0) else c
  }

  /** What becomes of a submitted text, as far as the editor is concerned. */
  datatype Reaction = Nothing | Insert(skill: string) | Leave

  /** What the idle loop consults: the suggestions for an input, and what the
      command in a submitted text does. */
  datatype Front = Front(suggest: Suggest, react: string -> Reaction)

  /** One event of the idle loop: the key, and what its submission leads to
      before the next drawing. */
  function Handle(c: Editor, k: Key, fr: Front): (Editor, bool)
    requires Valid(c)
  {
    var (d, action) := Press(c, k, fr.suggest);
    match action
    case NoAction => (d, true)
    case Quit => (d, false)
    case Submit(text) =>
      match fr.react(text) {
        case Nothing => (d, true)
        case Insert(skill) => (d.(input := Zipper("$" + skill + " ", "")), true)
        case Leave => (d, false)
      }
  }

  class ChatEditor {
    const input: InputBuffer
    var history: seq<string>
    var historyCursor: Option<nat>
    var historyDraft: string
    var suggestionsDismissed: bool
    var selectedSuggestion: nat

    constructor ()
      ensures Ready() && fresh(input) && View() == Editor(Zipper("", ""), [], None, "", false, 0)
    {
      input := new InputBuffer();
      history, historyCursor, historyDraft := [], None, "";
      suggestionsDismissed, selectedSuggestion := false, 0;
    }

    ghost function View(): Editor
      reads this, input
    {
      Editor(input.zip, history, historyCursor, historyDraft, suggestionsDismissed, selectedSuggestion)
    }

    ghost predicate Ready()
      reads this, input
    {
      input.Valid() && Valid(View())
    }

    method CurrentSuggestions(sg: Suggest) returns (offered: seq<string>)
      requires Ready()
      ensures offered == Suggestions(View(), sg)
    {
      if suggestionsDismissed { return []; }
      var text := input.Text();
      offered := sg(text);
    }

    method AfterInputEdit()
      requires input.Valid()
      modifies this
      ensures Ready() && View() == Edited(old(View()), input.zip)
    {
      suggestionsDismissed := false;
      selectedSuggestion := 0;
      historyCursor := None;
    }

    /** What drawing does to the state: the start of `render`. */
    method Redraw(sg: Suggest)
      requires Ready()
      modifies this
      ensures Ready() && View() == Drawn(old(View()), sg)
    {
      var offered := CurrentSuggestions(sg);
      if selectedSuggestion >= |offered| {
        selectedSuggestion := 0;
      }
    }

    method AcceptSuggestion(sg: Suggest)
      requires Ready()
      modifies this, input
      ensures Ready() && View() == Accept(old(View()), sg)
    {
      var offered := CurrentSuggestions(sg);
      if selectedSuggestion < |offered| {
        input.Set(offered[selectedSuggestion]);
        suggestionsDismissed := false;
        selectedSuggestion := 0;
      }
    }

    method SelectPreviousSuggestion(sg: Suggest)
      requires Ready()
      modifies this
      ensures Ready() && View() == SelectPrevious(old(View()), sg)
    {
      var offered := CurrentSuggestions(sg);
      if |offered| > 0 {
        selectedSuggestion := if selectedSuggestion > 0 then selectedSuggestion - 1 else |offered| - 1;
      }
    }

    method SelectNextSuggestion(sg: Suggest)
      requires Ready()
      modifies this
      ensures Ready() && View() == SelectNext(old(View()), sg)
    {
      var offered := CurrentSuggestions(sg);
      if |offered| > 0 {
        selectedSuggestion := (selectedSuggestion + 1) % |offered|;
      }
    }

    method NavigateHistoryUp()
      requires Ready()
      modifies this, input
      ensures Ready() && View() == HistoryUp(old(View()))
    {
      if history == [] { return; }
      var index;
      if historyCursor.Some? {
        index := if historyCursor.value > 0 then historyCursor.value - 1 else 0;
      } else {
        historyDraft := input.Text();
        index := |history| - 1;
      }
      historyCursor := Some(index);
      input.Set(history[index]);
      suggestionsDismissed := true;
    }

    method NavigateHistoryDown()
      requires Ready()
      modifies this, input
      ensures Ready() && View() == HistoryDown(old(View()))
    {
      if historyCursor.None? { return; }
      var index := historyCursor.value;
      if index + 1 < |history| {
        historyCursor := Some(index + 1);
        input.Set(history[index + 1]);
      } else {
        historyCursor := None;
        input.Set(historyDraft);
        historyDraft := "";
      }
      suggestionsDismissed := true;
    }

    method Submitted() returns (text: string)
      requires Ready()
      modifies this, input
      ensures Ready() && (View(), Submit(text)) == Press(old(View()), Enter, s => [])
    {
      text := input.Take();
      if !Blank(text) {
        history := history + [text];
      }
      historyCursor := None;
      historyDraft := "";
      AfterInputEdit();
    }

    method HandleKey(k: Key, sg: Suggest) returns (action: Action)
      requires Ready()
      modifies this, input
      ensures Ready() && (View(), action) == Press(old(View()), k, sg)
    {
      EmptyIff(input);
      action := NoAction;
      match k {
        case CtrlD =>
          if input.IsEmpty() { action := Quit; }
        case CtrlC =>
          if input.IsEmpty() { return Quit; }
          input.Clear();
          AfterInputEdit();
        case CtrlL =>
        case CtrlU =>
          input.Clear();
          AfterInputEdit();
        case Enter =>
          var text := Submitted();
          action := Submit(text);
        case Typed(ch) =>
          input.Insert(ch);
          AfterInputEdit();
        case BackspaceKey =>
          input.Backspace();
          AfterInputEdit();
        case DeleteKey =>
          input.Delete();
          AfterInputEdit();
        case LeftKey => input.MoveLeft();
        case RightKey => input.MoveRight();
        case HomeKey => input.Home();
        case EndKey => input.End();
        case Tab => AcceptSuggestion(sg);
        case BackTab => SelectPreviousSuggestion(sg);
        case Esc =>
          suggestionsDismissed := true;
          selectedSuggestion := 0;
        case Up =>
          var offered := CurrentSuggestions(sg);
          if offered != [] { SelectPreviousSuggestion(sg); } else { NavigateHistoryUp(); }
        case Down =>
          var offered := CurrentSuggestions(sg);
          if offered != [] { SelectNextSuggestion(sg); } else { NavigateHistoryDown(); }
        case Pasted(text) => input.InsertStr(SingleLine(text));
        case OtherKey =>
      }
    }
  }

  lemma EmptyIff(b: InputBuffer)
    requires b.Valid()
    ensures b.IsEmpty() <==> b.zip.Text() == ""
  {
    LeftIsEmpty(b.zip.left);
    LeftIsEmpty(b.zip.right);
  }

  // ----- what each key does to the line

  /** The characters before and after the cursor once a key is hit. */
  lemma KeysEdit(c: Editor, k: Key, sg: Suggest)
    requires Valid(c) && k != Tab && k != Up && k != Down
    ensures
      var left, right, input := c.input.left, c.input.right, Press(c, k, sg).0.input;
      match k
      case Typed(ch) => input.left == left + [ch] && input.right == right
      case Pasted(text) => input.left == left + Join(Split(text)) && input.right == right
      case BackspaceKey => input.left == (if left == "" then "" else left[..|left| - 1]) && input.right == right
      case DeleteKey => input.left == left && input.right == if right == "" then "" else right[1..]
      case LeftKey =>
        input.left + input.right == left + right && |input.left| == if left == "" then 0 else |left| - 1
      case RightKey =>
        input.left + input.right == left + right && |input.left| == if right == "" then |left| else |left| + 1
      case HomeKey => input.left == "" && input.right == left + right
      case EndKey => input.left == left + right && input.right == ""
      case Enter => input.left == "" && input.right == ""
      case CtrlU => input.left == "" && input.right == ""
      case CtrlC => input.left == "" && input.right == ""
      case _ => input == c.input
  {
  }

  /** Keys that change the text bring the suggestions back and leave the
      history; only Enter adds to the history, and only what is not blank;
      moving the cursor, and keys without a meaning, change nothing else. */
  lemma KeysSet(c: Editor, k: Key, sg: Suggest)
    requires Valid(c)
    ensures
      var d := Press(c, k, sg).0;
      && (k.Typed? || k.BackspaceKey? || k.DeleteKey? || k.CtrlU? || k.Enter? ==>
            !d.dismissed && d.selected == 0 && d.cursor == None)
      && (k.LeftKey? || k.RightKey? || k.HomeKey? || k.EndKey? || k.Pasted? || k.CtrlL? || k.CtrlD? || k.OtherKey? ==>
            d == c.(input := d.input))
      && (k.Esc? ==> d == c.(dismissed := true, selected := 0))
      && d.history == if k.Enter? && exists i :: 0 <= i < |c.input.Text()| && !IsSpace(c.input.Text()[i])
                      then c.history + [c.input.left + c.input.right] else c.history
  {
  }

  /** Enter submits the whole line; Ctrl-C and Ctrl-D leave if it is empty. */
  lemma KeysAct(c: Editor, k: Key, sg: Suggest)
    requires Valid(c)
    ensures
      var action := Press(c, k, sg).1;
      && (k.Enter? ==> action == Submit(c.input.left + c.input.right))
      && (k.CtrlC? || k.CtrlD? ==> action == if c.input.left + c.input.right == "" then Quit else NoAction)
      && (!k.Enter? && !k.CtrlC? && !k.CtrlD? ==> action == NoAction)
  {
  }

  /** What becomes of a submitted text: a skill is put on the line, with the
      cursor behind it; leaving, and quitting, end the session. */
  lemma SubmissionIs(c: Editor, k: Key, fr: Front)
    requires Valid(c)
    ensures
      var d, e := Press(c, k, fr.suggest).0, Handle(c, k, fr);
      if k.Enter? then
        match fr.react(c.input.left + c.input.right)
        case Insert(skill) => e.1 && e.0 == d.(input := Zipper("$" + skill + " ", ""))
        case Leave => !e.1 && e.0 == d
        case Nothing => e.1 && e.0 == d
      else e.0 == d && (e.1 <==> !((k.CtrlC? || k.CtrlD?) && c.input.left + c.input.right == ""))
  {
  }

  /** With suggestions on display the arrows, and Shift-Tab, go round them. */
  lemma ArrowsSelect(c: Editor, k: Key, sg: Suggest)
    requires Valid(c) && !c.dismissed && c.selected < |sg(c.input.Text())| && (k.Up? || k.Down? || k.BackTab?)
    ensures
      var n, d := |sg(c.input.Text())|, Press(c, k, sg).0;
      d == c.(selected := if k.Down? then (c.selected + 1) % n else (c.selected + n - 1) % n)
  {
    var n := |sg(c.input.Text())|;
    if c.selected == 0 {
      assert (n - 1) % n == n - 1;
    } else {
      assert c.selected + n - 1 == (c.selected - 1) + n;
      WrapAround(c.selected - 1, n);
    }
  }

  lemma WrapAround(i: nat, n: nat)
    requires i < n
    ensures (i + n) % n == i
  {
  }

  // ----- whole key sequences

  /** A history cursor is an index into the history, whatever key is hit. */
  lemma KeepsCursorValid(c: Editor, k: Key, fr: Front)
    requires Valid(c)
    ensures Valid(Press(c, k, fr.suggest).0) && Valid(Handle(c, k, fr).0) && Valid(Drawn(c, fr.suggest))
  {
  }

  /** `run_chat_loop` over some keys: the chat is drawn before each event, and
      once more to wait for the next one. */
  function Session(c: Editor, ks: seq<Key>, fr: Front): (d: Editor)
    requires Valid(c)
    ensures Valid(d)
    decreases |ks|
  {
    var drawn := Drawn(c, fr.suggest);
    if ks == [] then drawn
    else
      KeepsCursorValid(drawn, ks[0], fr);
      var (next, goesOn) := Handle(drawn, ks[0], fr);
      if goesOn then Session(next, ks[1..], fr) else next
  }

  /** The idle loop. Whatever is typed, pasted, accepted or recalled, the byte
      cursor stands between two characters of well-formed text. */
  method RunChatLoop(app: ChatEditor, ks: seq<Key>, fr: Front)
    requires app.Ready()
    modifies app, app.input
    ensures app.Ready() && app.View() == Session(old(app.View()), ks, fr)
    ensures app.input.cursor <= |app.input.text| && IsBoundary(app.input.text, app.input.cursor)
    ensures Decode(app.input.text) == Some(app.View().input.Text())
  {
    var i, goesOn := 0, true;
    app.Redraw(fr.suggest);
    while i < |ks| && goesOn
      invariant 0 <= i <= |ks| && app.Ready()
      invariant goesOn ==> Session(app.View(), ks[i..], fr) == Session(old(app.View()), ks, fr)
      invariant goesOn ==> app.View() == Drawn(app.View(), fr.suggest)
      invariant !goesOn ==> app.View() == Session(old(app.View()), ks, fr)
    {
      goesOn := HandleEvent(app, ks[i], fr);
      assert ks[i..][1..] == ks[i + 1..];
      if goesOn { app.Redraw(fr.suggest); }
      i := i + 1;
    }
    CursorIsBoundary(app.input);
  }

  method HandleEvent(app: ChatEditor, k: Key, fr: Front) returns (goesOn: bool)
    requires app.Ready()
    modifies app, app.input
    ensures app.Ready() && (app.View(), goesOn) == Handle(old(app.View()), k, fr)
  {
    var action := app.HandleKey(k, fr.suggest);
    goesOn := !action.Quit?;
    if action.Submit? {
      var reaction := fr.react(action.input);
      if reaction.Insert? {
        app.input.Set("$" + reaction.skill + " ");
      }
      goesOn := !reaction.Leave?;
    }
  }

  // ----- suggestions

  /** The selection is the first one or points at a suggestion on display. */
  predicate SelectionFits(c: Editor, sg: Suggest) {
    c.selected == 0 || c.selected < |Suggestions(c, sg)|
  }

  lemma MovesKeepText(z: Zipper)
    ensures z.MoveLeft().Text() == z.Text() && z.MoveRight().Text() == z.Text()
    ensures z.Home().Text() == z.Text() && z.End().Text() == z.Text()
  {
  }

  /** Only a paste leaves a selection to the next drawing to put right, and
      only one that no longer fits. */
  lemma DrawingMattersIff(c: Editor, k: Key, fr: Front)
    requires Valid(c) && SelectionFits(c, fr.suggest)
    ensures
      var d := Handle(c, k, fr).0;
      Drawn(d, fr.suggest) == d <==>
        !k.Pasted? || c.dismissed || c.selected == 0 || c.selected < |fr.suggest(d.input.Text())|
  {
    MovesKeepText(c.input);
  }

  /** At every event, after any keys, pastes and inserted skills: if there are
      suggestions on display one of them is selected, and the Tab key takes
      exactly that one. */
  lemma {:induction false} TabTakesTheSelected(c: Editor, ks: seq<Key>, fr: Front)
    requires Valid(c) && SelectionFits(c, fr.suggest)
    ensures
      var d := Session(c, ks, fr);
      var offered := Suggestions(d, fr.suggest);
      && SelectionFits(d, fr.suggest)
      && (offered != [] ==>
            && d.selected < |offered|
            && Press(d, Tab, fr.suggest).0 == d.(input := Zipper(offered[d.selected], ""), selected := 0))
    decreases |ks|
  {
    var drawn := Drawn(c, fr.suggest);
    if ks != [] {
      KeepsCursorValid(drawn, ks[0], fr);
      var (next, goesOn) := Handle(drawn, ks[0], fr);
      if goesOn {
        SessionFromDrawn(next, ks[1..], fr);
        TabTakesTheSelected(Drawn(next, fr.suggest), ks[1..], fr);
      } else {
        LeavingKeepsSelection(drawn, ks[0], fr);
      }
    }
  }

  /** Drawing twice is drawing once. */
  lemma SessionFromDrawn(c: Editor, ks: seq<Key>, fr: Front)
    requires Valid(c)
    ensures Valid(Drawn(c, fr.suggest)) && Session(Drawn(c, fr.suggest), ks, fr) == Session(c, ks, fr)
  {
    assert Drawn(Drawn(c, fr.suggest), fr.suggest) == Drawn(c, fr.suggest);
  }

  lemma LeavingKeepsSelection(c: Editor, k: Key, fr: Front)
    requires Valid(c) && SelectionFits(c, fr.suggest) && !Handle(c, k, fr).1
    ensures SelectionFits(Handle(c, k, fr).0, fr.suggest)
  {
  }

  // ----- history

  function Repeat(k: Key, n: nat): (ks: seq<Key>)
    ensures |ks| == n
  {
    if n == 0 then [] else [k] + Repeat(k, n - 1)
  }

  lemma RepeatNone(k: Key, ks: seq<Key>)
    ensures Repeat(k, 0) + ks == ks
  {
  }

  lemma RepeatFirst(k: Key, n: nat, ks: seq<Key>)
    requires n > 0
    ensures Repeat(k, n) + ks == [k] + (Repeat(k, n - 1) + ks)
  {
  }

  /** Entry `i` of the history on the line, `c`'s input put aside. */
  function Showing(c: Editor, i: nat): Editor
    requires i < |c.history|
  {
    c.(cursor := Some(i), draft := c.input.Text(), input := Zipper(c.history[i], ""), dismissed := true, selected := 0)
  }

  function Restored(c: Editor): Editor {
    c.(input := Zipper(c.input.Text(), ""), draft := "", dismissed := true, selected := 0)
  }

  /** One key of a session that goes on, then more of them. */
  lemma SessionFirst(c: Editor, k: Key, ks: seq<Key>, fr: Front, d: Editor)
    requires Valid(c) && Handle(Drawn(c, fr.suggest), k, fr) == (d, true)
    ensures Valid(d) && Session(c, [k] + ks, fr) == Session(d, ks, fr)
  {
    KeepsCursorValid(Drawn(c, fr.suggest), k, fr);
    assert ([k] + ks)[1..] == ks;
  }

  /** The entry `n` before entry `i`, or the first. */
  function Back(i: nat, n: nat): nat {
    if n <= i then i - n else 0
  }

  lemma OneUp(c: Editor, i: nat, fr: Front)
    requires i < |c.history|
    ensures Handle(Drawn(Showing(c, i), fr.suggest), Up, fr) == (Showing(c, Back(i, 1)), true)
  {
  }

  /** If a key leads from each stage to the next, pressing it `n` times leads
      `n` stages on. */
  lemma {:induction false} Stages(f: (nat, seq<Key>) -> Editor, k: Key, i: nat, n: nat, ks: seq<Key>)
    requires forall j: nat, js :: f(j, [k] + js) == f(j + 1, js)
    ensures f(i, Repeat(k, n) + ks) == f(i + n, ks)
    decreases n
  {
    if n == 0 {
      RepeatNone(k, ks);
    } else {
      RepeatFirst(k, n, ks);
      Stages(f, k, i + 1, n - 1, ks);
    }
  }

  lemma UpFirst(c: Editor, i: nat, n: nat, ks: seq<Key>, fr: Front)
    requires i < |c.history|
    ensures Session(Showing(c, Back(i, n)), [Up] + ks, fr) == Session(Showing(c, Back(i, n + 1)), ks, fr)
  {
    OneUp(c, Back(i, n), fr);
    SessionFirst(Showing(c, Back(i, n)), Up, ks, fr, Showing(c, Back(i, n + 1)));
  }

  lemma Ups(c: Editor, i: nat, n: nat, ks: seq<Key>, fr: Front)
    requires i < |c.history|
    ensures Session(Showing(c, i), Repeat(Up, n) + ks, fr) == Session(Showing(c, Back(i, n)), ks, fr)
  {
    var f := (j: nat, js: seq<Key>) => Session(Showing(c, Back(i, j)), js, fr);
    forall j: nat, js ensures f(j, [Up] + js) == f(j + 1, js) {
      UpFirst(c, i, j, js, fr);
    }
    Stages(f, Up, 0, n, ks);
  }

  /** `n` downs from entry `i`. */
  function Below(c: Editor, i: nat, n: nat): Editor {
    if i + n < |c.history| then Showing(c, i + n) else Restored(c)
  }

  lemma OneDown(c: Editor, i: nat, n: nat, fr: Front)
    requires c.cursor.None?
    ensures Handle(Drawn(Below(c, i, n), fr.suggest), Down, fr) == (Below(c, i, n + 1), true)
  {
  }

  lemma DownFirst(c: Editor, i: nat, n: nat, ks: seq<Key>, fr: Front)
    requires c.cursor.None?
    ensures Session(Below(c, i, n), [Down] + ks, fr) == Session(Below(c, i, n + 1), ks, fr)
  {
    OneDown(c, i, n, fr);
    SessionFirst(Below(c, i, n), Down, ks, fr, Below(c, i, n + 1));
  }

  lemma DownsThen(c: Editor, i: nat, n: nat, ks: seq<Key>, fr: Front)
    requires c.cursor.None?
    ensures Session(Below(c, i, 0), Repeat(Down, n) + ks, fr) == Session(Below(c, i, n), ks, fr)
  {
    var f := (j: nat, js: seq<Key>) => Session(Below(c, i, j), js, fr);
    forall j: nat, js ensures f(j, [Down] + js) == f(j + 1, js) {
      DownFirst(c, i, j, js, fr);
    }
    Stages(f, Down, 0, n, ks);
  }

  lemma NothingMore(c: Editor, i: nat, n: nat, fr: Front)
    requires c.cursor.None?
    ensures Session(Below(c, i, n), [], fr) == Below(c, i, n)
  {
  }

  lemma Downs(c: Editor, i: nat, n: nat, fr: Front)
    requires i < |c.history| && c.cursor.None?
    ensures Session(Showing(c, i), Repeat(Down, n), fr) == Below(c, i, n)
  {
    DownsThen(c, i, n, [], fr);
    NothingMore(c, i, n, fr);
    assert Repeat(Down, n) + [] == Repeat(Down, n);
  }

  lemma {:induction false} DownsBelow(c: Editor, n: nat, fr: Front)
    requires c.cursor.None? && Suggestions(c, fr.suggest) == []
    ensures Session(c, Repeat(Down, n), fr) == c.(selected := 0)
    decreases n
  {
    if n > 0 {
      SessionFirst(c, Down, Repeat(Down, n - 1), fr, c.(selected := 0));
      DownsBelow(c.(selected := 0), n - 1, fr);
    }
  }

  lemma FirstUp(c: Editor, ks: seq<Key>, fr: Front)
    requires c.cursor.None? && c.history != [] && Suggestions(c, fr.suggest) == []
    ensures Session(c, [Up] + ks, fr) == Session(Showing(c, |c.history| - 1), ks, fr)
  {
    SessionFirst(c, Up, ks, fr, Showing(c, |c.history| - 1));
  }

  lemma UpThenUps(c: Editor, n: nat, ks: seq<Key>, all: seq<Key>, fr: Front)
    requires c.cursor.None? && c.history != [] && Suggestions(c, fr.suggest) == [] && n > 0
    requires all == [Up] + (Repeat(Up, n - 1) + ks)
    ensures Session(c, all, fr) == Session(Showing(c, Back(|c.history|, n)), ks, fr)
  {
    FirstUp(c, Repeat(Up, n - 1) + ks, fr);
    Ups(c, |c.history| - 1, n - 1, ks, fr);
  }

  /** Going up `n` entries leads to the `n`-th last one, or the first. */
  lemma UpsFromDraft(c: Editor, n: nat, ks: seq<Key>, fr: Front)
    requires c.cursor.None? && c.history != [] && Suggestions(c, fr.suggest) == [] && n > 0
    ensures Session(c, Repeat(Up, n) + ks, fr)
         == Session(Showing(c, Back(|c.history|, n)), ks, fr)
  {
    RepeatFirst(Up, n, ks);
    UpThenUps(c, n, ks, Repeat(Up, n) + ks, fr);
  }

  lemma UpShowsHistory(c: Editor, n: nat, fr: Front)
    requires c.cursor.None? && c.history != [] && Suggestions(c, fr.suggest) == [] && n > 0
    ensures Session(c, Repeat(Up, n), fr) == Showing(c, Back(|c.history|, n))
  {
    assert Repeat(Up, n) + [] == Repeat(Up, n);
    UpsFromDraft(c, n, [], fr);
  }

  /** However often one goes up, going down as often, or as often as there
      are entries, brings back the unsent text; further downs change nothing. */
  lemma HistoryRoundTrip(c: Editor, ups: nat, downs: nat, fr: Front)
    requires c.cursor.None? && c.history != [] && Suggestions(c, fr.suggest) == []
    requires downs >= ups || downs >= |c.history|
    ensures
      var d := Session(c, Repeat(Up, ups) + Repeat(Down, downs), fr);
      && d.input.Text() == c.input.Text() && d.cursor.None? && d.history == c.history
      && (ups > 0 ==> d.input == Zipper(c.input.Text(), ""))
  {
    if ups == 0 {
      assert Repeat(Up, ups) + Repeat(Down, downs) == Repeat(Down, downs);
      DownsBelow(c, downs, fr);
    } else {
      UpsFromDraft(c, ups, Repeat(Down, downs), fr);
      Downs(c, Back(|c.history|, ups), downs, fr);
    }
  }
}
