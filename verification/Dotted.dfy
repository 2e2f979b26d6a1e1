/** Paths and the dotted keys they are written as. */
module Dotted {
  import opened Sequences

  type Path = seq<string>

  predicate DotFreeKey(k: string) {
    '.' !in k
  }

  predicate DotFreePath(p: Path) {
    forall i :: 0 <= i < |p| ==> DotFreeKey(p[i])
  }

  function Join(p: Path): string
    requires p != []
  {
    if |p| == 1 then p[0] else Join(p[..|p| - 1]) + "." + p[|p| - 1]
  }

  function Split(s: string): (p: Path)
    ensures p != []
  {
    if s == "" then [""]
    else
      var front, c := Split(s[..|s| - 1]), s[|s| - 1];
      if c == '.' then front + [""] else front[..|front| - 1] + [front[|front| - 1] + [c]]
  }

  /** The last part made longer. */
  function Extend(p: Path, k: string): Path
    requires p != []
  {
    p[..|p| - 1] + [p[|p| - 1] + k]
  }

  lemma ExtendTwice(p: Path, k: string, l: string)
    requires p != []
    ensures Extend(Extend(p, k), l) == Extend(p, k + l)
  {
    var last := p[|p| - 1];
    assert (last + k) + l == last + (k + l);
    assert Extend(p, k)[..|p| - 1] == p[..|p| - 1];
  }

  lemma SplitLast(s: string, c: char)
    ensures Split(s + [c]) == if c == '.' then Split(s) + [""] else Extend(Split(s), [c])
  {
    assert (s + [c])[..|s|] == s;
  }

  lemma {:induction false} SplitLonger(s: string, k: string)
    requires DotFreeKey(k)
    ensures Split(s + k) == Extend(Split(s), k)
    decreases |k|
  {
    if k == "" {
      assert s + k == s;
      assert Split(s)[|Split(s)| - 1] + "" == Split(s)[|Split(s)| - 1];
      assert Extend(Split(s), "") == Split(s);
    } else {
      var init, c := k[..|k| - 1], k[|k| - 1];
      assert c in k && forall d :: d in init ==> d in k;
      SplitLonger(s, init);
      SplitOneMore(s, init, c);
      assert k == init + [c];
    }
  }

  lemma SplitOneMore(s: string, k: string, c: char)
    requires Split(s + k) == Extend(Split(s), k) && c != '.'
    ensures Split(s + (k + [c])) == Extend(Split(s), k + [c])
  {
    SplitLast(s + k, c);
    Regroup(s, k, [c]);
    ExtendTwice(Split(s), k, [c]);
  }

  lemma {:induction false} SplitOfJoin(p: Path)
    requires p != [] && DotFreePath(p)
    ensures Split(Join(p)) == p
  {
    var front, k := p[..|p| - 1], p[|p| - 1];
    assert p == front + [k];
    if front == [] {
      SplitLonger("", k);
      assert "" + k == k;
    } else {
      SplitOfJoin(front);
      AfterDot(Join(front), k);
    }
  }

  lemma AfterDot(s: string, k: string)
    requires DotFreeKey(k)
    ensures Split(s + "." + k) == Split(s) + [k]
  {
    SplitLast(s, '.');
    SplitLonger(s + ".", k);
    assert "" + k == k;
  }

  lemma JoinLonger(p: Path, k: string)
    requires p != []
    ensures Join(p + [k]) == Join(p) + "." + k
  {
    assert (p + [k])[..|p|] == p;
  }
}
