/** The two text croppers: one pass over the words (crates/agx/src/main.rs) and
    two passes (crates/luna/src/session.rs). */
module Clipping {
  import opened Sequences
  import opened Words

  /** `crop_preview_text` */
  method CropPreviewText(text: string, maxChars: nat) returns (r: string)
    ensures r == Crop(text, maxChars)
  {
    var normalized := Join(Split(text));
    if normalized == "" { return "(no message)"; }
    if maxChars == 0 { return "..."; }
    var preview, i := "", 0;
    while i < maxChars
      invariant i <= maxChars && i <= |normalized| && preview == normalized[..i]
    {
      if i == |normalized| { return normalized; }
      preview := preview + [normalized[i]];
      i := i + 1;
    }
    r := if i < |normalized| then preview + "..." else preview;
    assert i == |normalized| ==> normalized[..i] == normalized;
  }

  function Crop(text: string, maxChars: nat): string {
    var line := SingleLine(text);
    if line == "" then "(no message)"
    else if |line| <= maxChars then line
    else line[..maxChars] + "..."
  }

  /** The space that the one-pass form never writes: the last character kept
      is a space, and more follows. */
  predicate CutAtSpace(text: string, maxChars: nat) {
    var line := SingleLine(text);
    0 < maxChars < |line| && line[maxChars - 1] == ' '
  }

  function Clip(text: string, maxChars: nat): string {
    if Blank(text) then "(empty)"
    else if CutAtSpace(text, maxChars) then SingleLine(text)[..maxChars - 1] + "..."
    else Crop(text, maxChars)
  }

  /** `clipped_text`: it agrees with cropping the single-spaced text, except
      where that would end in a space before the dots. */
  method ClippedText(text: string, maxChars: nat) returns (r: string)
    ensures r == Clip(text, maxChars)
  {
    ClipCases(text, maxChars);
    if Blank(text) { return "(empty)"; }
    if maxChars == 0 { return "..."; }
    r := ClippedWords(Split(text), maxChars);
  }

  /** The loop of `clipped_text`. */
  method ClippedWords(words: seq<string>, maxChars: nat) returns (r: string)
    requires AllWords(words) && maxChars > 0
    ensures r == CutLine(Join(words), maxChars)
  {
    var preview, chars := "", 0;
    ghost var line := Join(words);
    for i := 0 to |words|
      invariant WordsWritten(words, i, preview) && chars == |preview| <= maxChars
    {
      var separator := if preview == "" then 0 else 1;
      var remaining := maxChars - chars;
      WordAt(words, i);
      if remaining <= separator {
        CutBetweenWords(words, i, preview, maxChars);
        return preview + "...";
      }
      if separator == 1 {
        Longer(line, preview, ' ');
        preview := preview + " ";
        chars := chars + 1;
      }
      var word := words[i];
      ghost var at := chars;
      for k := 0 to |word|
        invariant chars == |preview| == at + k <= maxChars && preview == line[..chars]
      {
        if chars == maxChars {
          CutInWord(line, at, word, k, preview);
          return preview + "...";
        }
        LetterAt(line, at, word, k);
        Longer(line, preview, word[k]);
        preview := preview + [word[k]];
        chars := chars + 1;
      }
      NextWritten(words, i, preview);
    }
    AllWritten(words, preview);
    return preview;
  }

  lemma CutBetweenWords(ws: seq<string>, i: nat, preview: string, maxChars: nat)
    requires AllWords(ws) && 0 < i < |ws| && WordsWritten(ws, i, preview) && |preview| <= maxChars <= |preview| + 1
    ensures maxChars > 0 && CutLine(Join(ws), maxChars) == preview + "..."
  {
    WordAt(ws, i);
    assert IsWord(ws[i]) && StartOf(ws, i) == |preview| + 1;
    CutAround(Join(ws), preview, maxChars);
  }

  lemma CutAround(line: string, preview: string, maxChars: nat)
    requires 0 < |preview| <= maxChars <= |preview| + 1 < |line|
    requires preview == line[..|preview|] && line[|preview| - 1] != ' ' && line[|preview|] == ' '
    ensures CutLine(line, maxChars) == preview + "..."
  {
  }

  lemma CutInWord(line: string, at: nat, w: string, k: nat, preview: string)
    requires StandsAt(line, at, w) && IsWord(w) && 0 < k < |w| && |preview| == at + k && preview == line[..at + k]
    ensures CutLine(line, at + k) == preview + "..."
  {
    LetterAt(line, at, w, k - 1);
  }

  lemma NextWritten(ws: seq<string>, i: nat, preview: string)
    requires i < |ws| && AllWords(ws)
    requires |preview| == StartOf(ws, i) + |ws[i]| <= |Join(ws)|
    requires preview == Join(ws)[..|preview|]
    ensures WordsWritten(ws, i + 1, preview)
  {
    WordAt(ws, i);
    LetterAt(Join(ws), StartOf(ws, i), ws[i], |ws[i]| - 1);
  }

  lemma LetterAt(line: string, at: nat, w: string, k: nat)
    requires StandsAt(line, at, w) && IsWord(w) && k < |w|
    ensures line[at + k] == w[k] != ' '
  {
    assert line[at..at + |w|][k] == line[at + k];
  }

  lemma AllWritten(ws: seq<string>, preview: string)
    requires WordsWritten(ws, |ws|, preview)
    ensures preview == Join(ws)
  {
    assert ws[..|ws|] == ws;
  }

  lemma Longer(line: string, preview: string, c: char)
    requires |preview| < |line| && preview == line[..|preview|] && c == line[|preview|]
    ensures preview + [c] == line[..|preview| + 1]
  {
  }

  /** The first `i` words are written. */
  ghost predicate WordsWritten(ws: seq<string>, i: nat, preview: string)
    requires i <= |ws|
  {
    var line := Join(ws);
    && |preview| == Before(ws, i) <= |line| && preview == line[..|preview|]
    && (if i == 0 then preview == "" else preview != "" && line[|preview| - 1] != ' ')
  }

  /** The line, cut after `maxChars` characters, or before a space there. */
  function CutLine(line: string, maxChars: nat): string
    requires maxChars > 0
  {
    if |line| <= maxChars then line
    else if line[maxChars - 1] == ' ' then line[..maxChars - 1] + "..."
    else line[..maxChars] + "..."
  }

  lemma ClipCases(text: string, maxChars: nat)
    ensures AllWords(Split(text))
    ensures !Blank(text) && maxChars == 0 ==> Clip(text, maxChars) == "..."
    ensures !Blank(text) && maxChars > 0 ==> Clip(text, maxChars) == CutLine(Join(Split(text)), maxChars)
  {
    SplitGivesWords(text);
    SplitOfJoin(Split(text));
  }

  /** How long the first `i` words are, joined. */
  function Before(ws: seq<string>, i: nat): nat
    requires i <= |ws|
  {
    |Join(ws[..i])|
  }

  /** A word stands at `at`, after a space unless it is the first. */
  predicate StandsAt(line: string, at: nat, w: string) {
    && at + |w| <= |line| && line[at..at + |w|] == w
    && (at > 0 ==> line[at - 1] == ' ')
  }

  function StartOf(ws: seq<string>, i: nat): nat
    requires i <= |ws|
  {
    Before(ws, i) + if i == 0 then 0 else 1
  }

  lemma StandsInLonger(line: string, more: string, at: nat, w: string)
    requires StandsAt(line, at, w)
    ensures StandsAt(line + more, at, w)
  {
    assert (line + more)[..|line|] == line;
  }

  /** Where word `i` stands in the line, and the space before it. */
  lemma {:induction false} WordAt(ws: seq<string>, i: nat)
    requires i < |ws|
    ensures StandsAt(Join(ws), StartOf(ws, i), ws[i])
    ensures StartOf(ws, i) + |ws[i]| == Before(ws, i + 1) <= |Join(ws)|
    decreases |ws|
  {
    var front, w := ws[..|ws| - 1], ws[|ws| - 1];
    assert ws == front + [w];
    if i < |front| {
      WordAt(front, i);
      WordInFront(ws, i);
    } else {
      LastStands(front, w);
      assert ws[..i] == front && ws[..i + 1] == ws;
    }
  }

  lemma WordInFront(ws: seq<string>, i: nat)
    requires i < |ws| - 1
    requires
      var front := ws[..|ws| - 1];
      && StandsAt(Join(front), StartOf(front, i), front[i])
      && StartOf(front, i) + |front[i]| == Before(front, i + 1) <= |Join(front)|
    ensures StandsAt(Join(ws), StartOf(ws, i), ws[i])
    ensures StartOf(ws, i) + |ws[i]| == Before(ws, i + 1) <= |Join(ws)|
  {
    var front, w := ws[..|ws| - 1], ws[|ws| - 1];
    assert ws == front + [w];
    Prefixes(ws, i, |front|);
    Prefixes(ws, i + 1, |front|);
    JoinLast(front, w);
    StandsInLonger(Join(front), " " + w, StartOf(ws, i), ws[i]);
    Regroup(Join(front), " ", w);
  }

  lemma LastStands(front: seq<string>, w: string)
    ensures
      var at := if front == [] then 0 else |Join(front)| + 1;
      StandsAt(Join(front + [w]), at, w) && |Join(front + [w])| == at + |w|
  {
    JoinLast(front, w);
  }

  /** One pass and two passes give the same text, unless the text is blank,
      or the line is cut right after a space. */
  lemma ClipIsCropIff(text: string, maxChars: nat)
    ensures Clip(text, maxChars) == Crop(text, maxChars) <==> !Blank(text) && !CutAtSpace(text, maxChars)
    ensures CutAtSpace(text, maxChars) ==>
              && Crop(text, maxChars) == SingleLine(text)[..maxChars] + "..."
              && Clip(text, maxChars) == SingleLine(text)[..maxChars - 1] + "..."
  {
    SplitGivesWords(text);
    SplitOfJoin(Split(text));
    if Blank(text) {
      assert Clip(text, maxChars)[1] == 'e' && Crop(text, maxChars)[1] == 'n';
    }
  }

  /** Nothing is longer than asked for, but for the three dots. */
  lemma ClipsFit(text: string, maxChars: nat)
    requires !Blank(text)
    ensures |Clip(text, maxChars)| <= maxChars + 3 && |Crop(text, maxChars)| <= maxChars + 3
  {
    SplitGivesWords(text);
    SplitOfJoin(Split(text));
  }

  /** What the croppers give for words joined by single spaces: the text itself
      if it is short enough, else as much of it as fits and three dots, where
      the one-pass form drops a space before them. */
  lemma CropsOfWords(ws: seq<string>, maxChars: nat)
    requires AllWords(ws) && ws != []
    ensures
      var line := Join(ws);
      if |line| <= maxChars then Crop(line, maxChars) == line && Clip(line, maxChars) == line
      else
        && Crop(line, maxChars) == line[..maxChars] + "..."
        && Clip(line, maxChars) ==
             (if maxChars > 0 && line[maxChars - 1] == ' ' then line[..maxChars - 1] else line[..maxChars]) + "..."
  {
    SplitOfJoin(ws);
    SplitGivesWords(Join(ws));
  }

  /** Any text is treated as its words. */
  lemma CropsOfText(text: string, maxChars: nat)
    ensures Blank(text) ==> Crop(text, maxChars) == "(no message)" && Clip(text, maxChars) == "(empty)"
    ensures !Blank(text) ==>
              && Crop(text, maxChars) == Crop(Join(Split(text)), maxChars)
              && Clip(text, maxChars) == Clip(Join(Split(text)), maxChars)
  {
    SplitGivesWords(text);
    SplitOfJoin(Split(text));
    SplitGivesWords(Join(Split(text)));
  }
}
