/** The line editor of `luna chat` (crates/luna/src/commands/chat.rs): bytes
    and a byte cursor, kept equal to a zipper of characters. */
module InputLine {
  import opened Sequences
  import opened Options
  import opened Utf8

  /** The characters before and after the cursor. */
  datatype Zipper = Zipper(left: string, right: string) {
    function Text(): string { left + right }

    function Insert(s: string): Zipper { Zipper(left + s, right) }

    function Backspace(): Zipper { if left == "" then this else Zipper(left[..|left| - 1], right) }

    function Delete(): Zipper { if right == "" then this else Zipper(left, right[1..]) }

    function MoveLeft(): Zipper { if left == "" then this else Zipper(left[..|left| - 1], [left[|left| - 1]] + right) }

    function MoveRight(): Zipper { if right == "" then this else Zipper(left + [right[0]], right[1..]) }

    function Home(): Zipper { Zipper("", left + right) }

    function End(): Zipper { Zipper(left + right, "") }
  }

  class InputBuffer {
    var text: seq<byte>
    var cursor: nat
    ghost var zip: Zipper

    /** The bytes and the cursor are those of the zipper. */
    ghost predicate Valid()
      reads this
    {
      text == EncodeAll(zip.left) + EncodeAll(zip.right) && cursor == |EncodeAll(zip.left)|
    }

    constructor ()
      ensures Valid() && zip == Zipper("", "")
    {
      text, cursor, zip := [], 0, Zipper("", "");
    }

    /** `self.text.clone()`, as characters */
    method Text() returns (s: string)
      requires Valid()
      ensures s == zip.Text()
    {
      EncodeConcat(zip.left, zip.right);
      DecodeIff(text, zip.Text());
      s := Decode(text).value;
    }

    /** `self.text.is_empty()` */
    predicate IsEmpty()
      reads this
    {
      text == []
    }

    method Set(s: string)
      modifies this
      ensures Valid() && zip == Zipper(s, "")
    {
      text := EncodeAll(s);
      cursor := |text|;
      zip := Zipper(s, "");
      assert text + [] == text;
    }

    method Clear()
      modifies this
      ensures Valid() && zip == Zipper("", "")
    {
      text, cursor := [], 0;
      zip := Zipper("", "");
    }

    method Take() returns (s: string)
      requires Valid()
      modifies this
      ensures Valid() && s == old(zip).Text() && zip == Zipper("", "")
    {
      s := Text();
      text, cursor := [], 0;
      zip := Zipper("", "");
    }

    method Insert(c: char)
      requires Valid()
      modifies this
      ensures Valid() && zip == old(zip).Insert([c])
    {
      Splice(zip, text, cursor, [c]);
      EncodeOne(c);
      text := text[..cursor] + Encode(c) + text[cursor..];
      cursor := cursor + |Encode(c)|;
      zip := zip.Insert([c]);
    }

    method InsertStr(s: string)
      requires Valid()
      modifies this
      ensures Valid() && zip == old(zip).Insert(s)
    {
      Splice(zip, text, cursor, s);
      text := text[..cursor] + EncodeAll(s) + text[cursor..];
      cursor := cursor + |EncodeAll(s)|;
      zip := zip.Insert(s);
    }

    /** `text[..cursor].char_indices().next_back()` */
    method PreviousBoundary() returns (previous: nat)
      requires Valid() && cursor > 0
      ensures zip.left != "" && previous == |EncodeAll(zip.left[..|zip.left| - 1])| < cursor
    {
      ghost var init, last := zip.left[..|zip.left| - 1], Encode(zip.left[|zip.left| - 1]);
      assert forall i :: |EncodeAll(init)| <= i < cursor ==> text[i] == last[i - |EncodeAll(init)|];
      previous := cursor - 1;
      while Continues(text[previous])
        invariant |EncodeAll(init)| <= previous < cursor
        decreases previous
      {
        previous := previous - 1;
      }
    }

    /** `text[cursor..].chars().next()` */
    method NextBoundary() returns (next: nat)
      requires Valid() && cursor < |text|
      ensures zip.right != "" && next == cursor + |Encode(zip.right[0])| <= |text|
    {
      EncodeCons(zip.right);
      assert text[cursor] == Encode(zip.right[0])[0];
      next := cursor + WidthOf(text[cursor]);
    }

    method Backspace()
      requires Valid()
      modifies this
      ensures Valid() && zip == old(zip).Backspace()
    {
      LeftIsEmpty(zip.left);
      if cursor == 0 { return; }
      var previous := PreviousBoundary();
      DropLast(zip, text);
      text := text[..previous] + text[cursor..];
      cursor := previous;
      zip := zip.Backspace();
    }

    method Delete()
      requires Valid()
      modifies this
      ensures Valid() && zip == old(zip).Delete()
    {
      LeftIsEmpty(zip.right);
      if cursor == |text| { return; }
      var next := NextBoundary();
      DropFirst(zip, text);
      text := text[..cursor] + text[next..];
      zip := zip.Delete();
    }

    method MoveLeft()
      requires Valid()
      modifies this
      ensures Valid() && zip == old(zip).MoveLeft()
    {
      LeftIsEmpty(zip.left);
      if cursor > 0 {
        cursor := PreviousBoundary();
        MovesKeepBytes(zip);
        zip := zip.MoveLeft();
      }
    }

    method MoveRight()
      requires Valid()
      modifies this
      ensures Valid() && zip == old(zip).MoveRight()
    {
      LeftIsEmpty(zip.right);
      if cursor < |text| {
        cursor := NextBoundary();
        MovesKeepBytes(zip);
        zip := zip.MoveRight();
      }
    }

    method Home()
      requires Valid()
      modifies this
      ensures Valid() && zip == old(zip).Home()
    {
      EncodeConcat(zip.left, zip.right);
      cursor := 0;
      zip := zip.Home();
    }

    method End()
      requires Valid()
      modifies this
      ensures Valid() && zip == old(zip).End()
    {
      EncodeConcat(zip.left, zip.right);
      cursor := |text|;
      zip := zip.End();
    }
  }

  /** The bytes without the character after the cursor. */
  lemma DropFirst(zip: Zipper, text: seq<byte>)
    requires text == EncodeAll(zip.left) + EncodeAll(zip.right) && zip.right != ""
    ensures
      var c := |EncodeAll(zip.left)|;
      var next := c + |Encode(zip.right[0])|;
      next <= |text| && text[..c] + text[next..] == EncodeAll(zip.left) + EncodeAll(zip.right[1..])
  {
    EncodeCons(zip.right);
    Regroup(EncodeAll(zip.left), Encode(zip.right[0]), EncodeAll(zip.right[1..]));
  }

  /** The bytes without the character before the cursor. */
  lemma DropLast(zip: Zipper, text: seq<byte>)
    requires text == EncodeAll(zip.left) + EncodeAll(zip.right) && zip.left != ""
    ensures
      var init := EncodeAll(zip.left[..|zip.left| - 1]);
      && |init| <= |EncodeAll(zip.left)| <= |text|
      && text[..|init|] + text[|EncodeAll(zip.left)|..] == init + EncodeAll(zip.right)
  {
    StepOver(zip.left[..|zip.left| - 1], zip.left[|zip.left| - 1], zip.right);
    assert zip.left == zip.left[..|zip.left| - 1] + [zip.left[|zip.left| - 1]];
  }

  lemma LeftIsEmpty(s: string)
    ensures s == "" <==> EncodeAll(s) == []
  {
  }

  lemma Splice(z: Zipper, text: seq<byte>, cursor: nat, s: string)
    requires text == EncodeAll(z.left) + EncodeAll(z.right) && cursor == |EncodeAll(z.left)|
    ensures text[..cursor] + EncodeAll(s) + text[cursor..] == EncodeAll(z.left + s) + EncodeAll(z.right)
    ensures cursor + |EncodeAll(s)| == |EncodeAll(z.left + s)|
  {
    EncodeConcat(z.left, s);
    assert text[..cursor] == EncodeAll(z.left) && text[cursor..] == EncodeAll(z.right);
  }

  /** The same bytes, with the cursor on either side of `c`. */
  lemma StepOver(l: string, c: char, r: string)
    ensures EncodeAll(l + [c]) == EncodeAll(l) + Encode(c)
    ensures EncodeAll([c] + r) == Encode(c) + EncodeAll(r)
    ensures EncodeAll(l + [c]) + EncodeAll(r) == EncodeAll(l) + EncodeAll([c] + r)
  {
    EncodeOne(c);
    EncodeConcat(l, [c]);
    EncodeConcat([c], r);
    Regroup(EncodeAll(l), Encode(c), EncodeAll(r));
  }

  lemma MovesKeepBytes(z: Zipper)
    ensures
      var l := z.MoveLeft();
      EncodeAll(l.left) + EncodeAll(l.right) == EncodeAll(z.left) + EncodeAll(z.right)
    ensures
      var r := z.MoveRight();
      EncodeAll(r.left) + EncodeAll(r.right) == EncodeAll(z.left) + EncodeAll(z.right)
    ensures z.right != "" ==> |EncodeAll(z.MoveRight().left)| == |EncodeAll(z.left)| + |Encode(z.right[0])|
  {
    if z.left != "" {
      var init, c := z.left[..|z.left| - 1], z.left[|z.left| - 1];
      assert z.left == init + [c];
      StepOver(init, c, z.right);
    }
    if z.right != "" {
      assert z.right == [z.right[0]] + z.right[1..];
      StepOver(z.left, z.right[0], z.right[1..]);
    }
  }

  /** The cursor is a boundary of well-formed text, whatever is done. */
  lemma CursorIsBoundary(b: InputBuffer)
    requires b.Valid()
    ensures IsBoundary(b.text, b.cursor) && b.cursor <= |b.text|
    ensures Decode(b.text) == Some(b.zip.Text())
  {
    BetweenChars(b.zip.left, b.zip.right);
    DecodeIff(b.text, b.zip.Text());
  }

  /** A byte buffer determines its zipper: two zippers with the same bytes and
      the same cursor are the same. */
  lemma ZipperIsDetermined(y: Zipper, z: Zipper)
    requires EncodeAll(y.left) + EncodeAll(y.right) == EncodeAll(z.left) + EncodeAll(z.right)
    requires |EncodeAll(y.left)| == |EncodeAll(z.left)|
    ensures y == z
  {
    var bs := EncodeAll(y.left) + EncodeAll(y.right);
    var n := |EncodeAll(y.left)|;
    assert bs[..n] == EncodeAll(y.left) == EncodeAll(z.left);
    assert bs[n..] == EncodeAll(y.right) == EncodeAll(z.right);
    DecodeIff(bs[..n], y.left);
    DecodeIff(bs[..n], z.left);
    DecodeIff(bs[n..], y.right);
    DecodeIff(bs[n..], z.right);
  }

  // ----- what undoes what

  method InsertThenBackspace(b: InputBuffer, c: char)
    requires b.Valid()
    modifies b
    ensures b.text == old(b.text) && b.cursor == old(b.cursor)
  {
    b.Insert(c);
    b.Backspace();
    assert b.zip == old(b.zip);
  }

  lemma EditsUndo(z: Zipper, c: char)
    ensures z.Insert([c]).Backspace() == z
    ensures z.Insert([c]).MoveLeft().Delete() == z
    ensures z.left != "" ==> z.MoveLeft().MoveRight() == z && z.MoveLeft().Delete() == z.Backspace()
    ensures z.right != "" ==> z.MoveRight().MoveLeft() == z && z.MoveRight().Backspace() == z.Delete()
  {
    assert (z.left + [c])[..|z.left|] == z.left;
    assert ([c] + z.right)[1..] == z.right;
    if z.left != "" {
      var m := z.MoveLeft();
      assert m.right[1..] == z.right && z.left == m.left + [m.right[0]];
    }
    if z.right != "" {
      var m := z.MoveRight();
      assert m.left[..|m.left| - 1] == z.left && z.right == [m.left[|m.left| - 1]] + m.right;
    }
  }
}
