/** Rust's `split_whitespace`, and joining words with single spaces. */
module Words {
  /** Unicode White_Space */
  predicate IsSpace(c: char) {
    var n := c as int;
    || 9 <= n <= 13 || n == 0x20 || n == 0x85 || n == 0xA0 || n == 0x1680
    || 0x2000 <= n <= 0x200A || n == 0x2028 || n == 0x2029 || n == 0x202F || n == 0x205F || n == 0x3000
  }

  /** `trim().is_empty()` */
  predicate Blank(s: string) {
    forall i :: 0 <= i < |s| ==> IsSpace(s[i])
  }

  predicate IsWord(w: string) {
    w != "" && forall i :: 0 <= i < |w| ==> !IsSpace(w[i])
  }

  predicate AllWords(ws: seq<string>) {
    forall i :: 0 <= i < |ws| ==> IsWord(ws[i])
  }

  predicate EndsInWord(s: string) {
    s != "" && !IsSpace(s[|s| - 1])
  }

  /** `split_whitespace` */
  function Split(s: string): seq<string> {
    if s == "" then []
    else
      var init, c := s[..|s| - 1], s[|s| - 1];
      var ws := Split(init);
      if IsSpace(c) then ws
      else if EndsInWord(init) && ws != [] then ws[..|ws| - 1] + [ws[|ws| - 1] + [c]]
      else ws + [[c]]
  }

  /** `join(" ")` */
  function Join(ws: seq<string>): string {
    if ws == [] then ""
    else if |ws| == 1 then ws[0]
    else Join(ws[..|ws| - 1]) + " " + ws[|ws| - 1]
  }

  function SingleLine(s: string): string {
    Join(Split(s))
  }

  lemma {:induction false} SplitGivesWords(s: string)
    ensures AllWords(Split(s))
    ensures Split(s) == [] <==> Blank(s)
  {
    if s != "" {
      SplitGivesWords(s[..|s| - 1]);
    }
  }

  /** The last word with one more letter. */
  function Extend(ws: seq<string>, k: string): seq<string>
    requires ws != []
  {
    ws[..|ws| - 1] + [ws[|ws| - 1] + k]
  }

  lemma SplitLast(s: string, c: char)
    ensures
      Split(s + [c]) ==
        if IsSpace(c) then Split(s)
        else if EndsInWord(s) && Split(s) != [] then Extend(Split(s), [c])
        else Split(s) + [[c]]
  {
    assert (s + [c])[..|s|] == s;
  }

  lemma ExtendAdded(ws: seq<string>, w: string, c: char)
    ensures Extend(ws + [w], [c]) == ws + [w + [c]]
  {
    assert (ws + [w])[..|ws|] == ws;
  }

  /** A word after a gap, or at the start, is one more word. */
  lemma {:induction false} SplitWord(s: string, w: string)
    requires IsWord(w) && !EndsInWord(s)
    ensures Split(s + w) == Split(s) + [w] && EndsInWord(s + w)
    decreases |w|
  {
    var init, c := w[..|w| - 1], w[|w| - 1];
    assert w == init + [c] && s + w == (s + init) + [c];
    if init == "" {
      assert s + init == s && w == [c];
      SplitLast(s, c);
    } else {
      SplitWord(s, init);
      SplitLast(s + init, c);
      ExtendAdded(Split(s), init, c);
    }
  }

  lemma JoinLast(ws: seq<string>, w: string)
    ensures Join(ws + [w]) == if ws == [] then w else Join(ws) + " " + w
  {
    assert (ws + [w])[..|ws|] == ws;
  }

  /** Splitting undoes joining, so the single-spaced form of a text is a fixed
      point. */
  lemma {:induction false} SplitOfJoin(ws: seq<string>)
    requires AllWords(ws)
    ensures Split(Join(ws)) == ws
    ensures ws != [] ==> EndsInWord(Join(ws))
  {
    if ws != [] {
      var front, w := ws[..|ws| - 1], ws[|ws| - 1];
      assert ws == front + [w];
      SplitOfJoin(front);
      JoinLast(front, w);
      AfterGap(front, w);
    }
  }

  lemma AfterGap(ws: seq<string>, w: string)
    requires IsWord(w) && Split(Join(ws)) == ws
    ensures Split(Join(ws + [w])) == ws + [w] && EndsInWord(Join(ws + [w]))
  {
    JoinLast(ws, w);
    if ws == [] {
      SplitWord("", w);
      assert "" + w == w;
    } else {
      SplitLast(Join(ws), ' ');
      SplitWord(Join(ws) + " ", w);
    }
  }

  lemma SingleLineTwice(s: string)
    ensures SingleLine(SingleLine(s)) == SingleLine(s)
  {
    SplitGivesWords(s);
    SplitOfJoin(Split(s));
  }

  /** White space separates: what is split before and after it is split apart,
      and with `SplitWord` that says what the words of any text are. */
  lemma {:induction false} SplitAtSpace(s: string, c: char, t: string)
    requires IsSpace(c)
    ensures Split(s + [c] + t) == Split(s) + Split(t)
    ensures t != "" ==> (EndsInWord(s + [c] + t) <==> EndsInWord(t))
    decreases |t|
  {
    if t == "" {
      assert s + [c] + t == s + [c];
      SplitLast(s, c);
      assert Split(s) + [] == Split(s);
    } else {
      var init, d := t[..|t| - 1], t[|t| - 1];
      assert s + [c] + t == (s + [c] + init) + [d] && t == init + [d];
      SplitAtSpace(s, c, init);
      SplitLast(s + [c] + init, d);
      SplitLast(init, d);
      if init == "" {
        assert s + [c] + init == s + [c] && !EndsInWord(s + [c]);
        assert Split(s) + [] == Split(s);
      } else if !IsSpace(d) && Split(init) != [] && EndsInWord(init) {
        ExtendAfter(Split(s), Split(init), [d]);
      } else if IsSpace(d) {
        assert Split(t) == Split(init);
      } else {
        SplitGivesWords(init);
        assert Split(s) + (Split(init) + [[d]]) == Split(s) + Split(init) + [[d]];
      }
    }
  }

  lemma ExtendAfter(vs: seq<string>, ws: seq<string>, k: string)
    requires ws != []
    ensures Extend(vs + ws, k) == vs + Extend(ws, k)
  {
    assert (vs + ws)[..|vs + ws| - 1] == vs + ws[..|ws| - 1];
  }

  /** One word is split into itself. */
  lemma SplitOneWord(w: string)
    requires IsWord(w)
    ensures Split(w) == [w]
  {
    SplitWord("", w);
    assert "" + w == w;
  }

  /** Which ASCII characters are white space: tab, the line breaks, and the
      space. */
  lemma AsciiSpaces(c: char)
    requires c as int < 0x80
    ensures IsSpace(c) <==> c == ' ' || c == '\t' || c == '\n' || c == '\r' || c as int == 0x0B || c as int == 0x0C
  {
  }
}
