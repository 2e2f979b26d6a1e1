/** Which thread "latest" means (crates/sdk/src/api.rs). */
module LatestThread {
  import opened Options
  import opened Json

  datatype ThreadSummary = ThreadSummary(id: string, extra: map<string, Json>)

  predicate IsDigits(s: string) {
    s != "" && forall i :: 0 <= i < |s| ==> '0' <= s[i] <= '9'
  }

  function Digits(s: string): nat
    requires s == "" || IsDigits(s)
  {
    if s == "" then 0 else 10 * Digits(s[..|s| - 1]) + (s[|s| - 1] as int - '0' as int)
  }

  /** `parse::<i64>()` */
  function ParseI64(s: string): Option<int> {
    var signed := s != "" && (s[0] == '-' || s[0] == '+');
    var digits := if signed then s[1..] else s;
    if !IsDigits(digits) then None
    else
      var n: int := if s[0] == '-' then 0 - Digits(digits) else Digits(digits);
      if FitsI64(n) then Some(n) else None
  }

  /** `parse_timestamp` */
  function ParseTimestamp(v: Option<Json>): Option<int> {
    if v.None? then None
    else if v.value.Int? && FitsI64(v.value.i) then Some(v.value.i)
    else if v.value.Str? then ParseI64(v.value.s)
    else None
  }

  /** `thread_recency_score` */
  function Score(t: ThreadSummary): Option<int> {
    Or(ParseTimestamp(Get(t.extra, "updatedAt")), ParseTimestamp(Get(t.extra, "createdAt")))
  }

  /** `thread_matches_working_directory` */
  predicate Matches(t: ThreadSummary, dir: Option<string>) {
    dir.Some? ==> GetStr(t.extra, "cwd") == dir
  }

  predicate FirstMatch(ts: seq<ThreadSummary>, dir: Option<string>, i: nat) {
    i < |ts| && Matches(ts[i], dir) && forall j :: 0 <= j < i ==> !Matches(ts[j], dir)
  }

  /** The earliest of the matching threads with the greatest score. */
  predicate EarliestNewest(ts: seq<ThreadSummary>, dir: Option<string>, i: nat) {
    && i < |ts| && Matches(ts[i], dir) && Score(ts[i]).Some?
    && forall j :: 0 <= j < |ts| && Matches(ts[j], dir) && Score(ts[j]).Some? ==>
         Score(ts[j]).value <= Score(ts[i]).value && (j < i ==> Score(ts[j]).value < Score(ts[i]).value)
  }

  /** Thread `i` is the latest: the first match if that has no score, else the
      earliest newest. */
  predicate IsLatest(ts: seq<ThreadSummary>, dir: Option<string>, i: nat) {
    exists f :: 0 <= f <= i && FirstMatch(ts, dir, f)
        && if Score(ts[f]).None? then i == f else EarliestNewest(ts, dir, i)
  }

  lemma LatestIsUnique(ts: seq<ThreadSummary>, dir: Option<string>, i: nat, j: nat)
    requires IsLatest(ts, dir, i) && IsLatest(ts, dir, j)
    ensures i == j
  {
    var f :| 0 <= f <= i && FirstMatch(ts, dir, f) && if Score(ts[f]).None? then i == f else EarliestNewest(ts, dir, i);
    var g :| 0 <= g <= j && FirstMatch(ts, dir, g) && if Score(ts[g]).None? then j == g else EarliestNewest(ts, dir, j);
    assert f == g;
  }

  /** What is selected of the threads `ts`. */
  predicate Selects(ts: seq<ThreadSummary>, dir: Option<string>, r: Option<string>) {
    if r.None? then forall i :: 0 <= i < |ts| ==> !Matches(ts[i], dir)
    else exists i :: 0 <= i < |ts| && IsLatest(ts, dir, i) && ts[i].id == r.value
  }

  /** `select_latest_thread_id` */
  method SelectLatestThreadId(threads: seq<ThreadSummary>, dir: Option<string>) returns (r: Option<string>)
    ensures Selects(threads, dir, r)
  {
    var selected: Option<(Option<int>, string)> := None;
    ghost var at, first := 0, 0;
    for k := 0 to |threads|
      invariant selected.None? ==> forall j :: 0 <= j < k ==> !Matches(threads[j], dir)
      invariant selected.Some? ==>
        && first <= at < k && FirstMatch(threads, dir, first) && selected.value == (Score(threads[at]), threads[at].id)
        && if Score(threads[first]).None? then at == first else EarliestNewest(threads[..k], dir, at)
    {
      assert forall j :: 0 <= j < k ==> threads[..k + 1][j] == threads[..k][j];
      if Matches(threads[k], dir) {
        var candidate := (Score(threads[k]), threads[k].id);
        if selected.None? {
          selected := Some(candidate);
          at, first := k, k;
        } else if selected.value.0.Some? && candidate.0.Some? && candidate.0.value > selected.value.0.value {
          selected := Some(candidate);
          at := k;
        }
      }
    }
    assert threads[..|threads|] == threads;
    r := if selected.Some? then Some(selected.value.1) else None;
    if selected.Some? { assert IsLatest(threads, dir, at); }
  }

  // ----- scores

  /** A number in decimal. */
  function Decimal(n: nat): string {
    (if n < 10 then "" else Decimal(n / 10)) + [('0' as int + n % 10) as char]
  }

  lemma {:induction false} DigitsOfDecimal(n: nat)
    ensures IsDigits(Decimal(n)) && Digits(Decimal(n)) == n
    decreases n
  {
    var d := Decimal(n);
    if n >= 10 { DigitsOfDecimal(n / 10); }
    assert d[..|d| - 1] == if n < 10 then "" else Decimal(n / 10);
  }

  /** The text is the number in decimal, with or without a sign. */
  predicate Spells(s: string, n: int) {
    || (n >= 0 && (s == Decimal(n) || s == "+" + Decimal(n)))
    || (n <= 0 && s == "-" + Decimal(-n))
  }

  lemma UnsignedIsRead(s: string)
    requires IsDigits(s)
    ensures ParseI64(s) == if FitsI64(Digits(s)) then Some(Digits(s)) else None
  {
    assert '0' <= s[0] <= '9';
  }

  lemma PlusIsRead(s: string)
    requires IsDigits(s)
    ensures ParseI64("+" + s) == if FitsI64(Digits(s)) then Some(Digits(s)) else None
  {
    assert ("+" + s)[1..] == s && ("+" + s)[0] == '+';
  }

  lemma MinusIsRead(s: string)
    requires IsDigits(s)
    ensures ParseI64("-" + s) == if FitsI64(0 - Digits(s)) then Some(0 - Digits(s)) else None
  {
    assert ("-" + s)[1..] == s && ("-" + s)[0] == '-';
  }

  lemma SignedIsRead(n: int, s: string, digits: string)
    requires IsDigits(digits)
    requires || (n >= 0 && Digits(digits) == n && (s == digits || s == "+" + digits))
             || (n <= 0 && Digits(digits) == 0 - n && s == "-" + digits)
    ensures ParseI64(s) == if FitsI64(n) then Some(n) else None
  {
    if s == digits {
      UnsignedIsRead(digits);
    } else if s == "+" + digits {
      PlusIsRead(digits);
    } else {
      MinusIsRead(digits);
    }
  }

  lemma SpelledIsRead(n: int, s: string)
    requires Spells(s, n)
    ensures ParseI64(s) == if FitsI64(n) then Some(n) else None
  {
    var m: nat := if n < 0 then -n else n;
    DigitsOfDecimal(m);
    SignedIsRead(n, s, Decimal(m));
  }

  /** A timestamp is read from a 64-bit integer, or from a text that spells
      one. */
  lemma TimestampIsRead(n: int, s: string)
    requires Spells(s, n)
    ensures ParseTimestamp(Some(Int(n)))
         == if -0x8000_0000_0000_0000 <= n < 0x8000_0000_0000_0000 then Some(n) else None
    ensures ParseTimestamp(Some(Str(s))) == ParseTimestamp(Some(Int(n)))
    ensures ParseTimestamp(None) == None
  {
    SpelledIsRead(n, s);
  }

  /** A text with anything but digits after its sign is no timestamp, and so is
      any other value. */
  lemma NoTimestamp(v: Json, i: nat)
    requires match v
             case Int(_) => false
             case Str(s) => s == "" || s == "-" || s == "+" || (0 < i < |s| && !('0' <= s[i] <= '9'))
             case _ => true
    ensures ParseTimestamp(Some(v)) == None
  {
    if v.Str? && 0 < i < |v.s| {
      if v.s[0] == '-' || v.s[0] == '+' {
        assert v.s[1..][i - 1] == v.s[i];
      }
    }
  }

  /** A thread's score is the timestamp in `updatedAt`, or, only if there is
      none to be read, the one in `createdAt`. */
  lemma ScoreIs(t: ThreadSummary, n: int)
    ensures Score(t) == Some(n) <==>
      var updated := if "updatedAt" in t.extra then ParseTimestamp(Some(t.extra["updatedAt"])) else None;
      var created := if "createdAt" in t.extra then ParseTimestamp(Some(t.extra["createdAt"])) else None;
      updated == Some(n) || (updated == None && created == Some(n))
  {
  }

  /** A thread matches a directory if that is the text in its `cwd`, and every
      thread matches if none is asked for. */
  lemma MatchesIff(t: ThreadSummary, dir: Option<string>)
    ensures Matches(t, dir) <==>
      match dir
      case Some(d) => "cwd" in t.extra && t.extra["cwd"] == Str(d)
      case None => true
  {
  }

  // ----- pages

  const MAX_THREAD_LIST_PAGES: nat := 100

  datatype Reply = Page(data: seq<ThreadSummary>, next: Option<string>) | RequestFailed(message: string)

  /** What the server answers the `n`-th request, which carries a cursor. */
  type Server = (nat, Option<string>) -> Reply

  datatype Resolved = Found(id: string) | NoneRecorded | TooManyPages | Failed(message: string)

  function ReplyTo(sv: Server, n: nat): Reply {
    sv(n, if n == 0 then None else NextCursor(ReplyTo(sv, n - 1)))
  }

  function NextCursor(r: Reply): Option<string> {
    if r.Page? then r.next else None
  }

  predicate Continues(sv: Server, n: nat) {
    NextCursor(ReplyTo(sv, n)).Some?
  }

  /** The threads on the first `n` pages. */
  function Listed(sv: Server, n: nat): seq<ThreadSummary> {
    if n == 0 then []
    else Listed(sv, n - 1) + if ReplyTo(sv, n - 1).Page? then ReplyTo(sv, n - 1).data else []
  }

  /** Each request carries the cursor of the page before it, the first one
      none, and the threads listed are those of all pages in order. */
  lemma PagesFollow(sv: Server, n: nat)
    ensures ReplyTo(sv, 0) == sv(0, None) && Listed(sv, 0) == []
    ensures
      match ReplyTo(sv, n)
      case Page(data, next) => ReplyTo(sv, n + 1) == sv(n + 1, next) && Listed(sv, n + 1) == Listed(sv, n) + data
      case RequestFailed(_) => Listed(sv, n + 1) == Listed(sv, n)
  {
    assert Listed(sv, n) + [] == Listed(sv, n);
  }

  /** The listing ends on page `n`, or goes on to the limit `n`. */
  predicate EndsOn(sv: Server, n: nat) {
    && n <= MAX_THREAD_LIST_PAGES
    && (forall i :: 0 <= i < n ==> Continues(sv, i))
    && (n < MAX_THREAD_LIST_PAGES ==> !Continues(sv, n))
  }

  lemma EndsSomewhere(sv: Server, n: nat)
    requires n <= MAX_THREAD_LIST_PAGES && forall i :: 0 <= i < n ==> Continues(sv, i)
    ensures exists m :: EndsOn(sv, m)
    decreases MAX_THREAD_LIST_PAGES - n
  {
    if n < MAX_THREAD_LIST_PAGES && Continues(sv, n) {
      EndsSomewhere(sv, n + 1);
    } else {
      assert EndsOn(sv, n);
    }
  }

  ghost function LastPage(sv: Server): (m: nat)
    ensures EndsOn(sv, m)
  {
    EndsSomewhere(sv, 0);
    var m :| EndsOn(sv, m);
    m
  }

  /** `resolve_latest_thread_id`: whatever the server does, it ends within 100
      requests. If the listing ends within them, the choice is the latest
      thread over all its pages; a failed request, and a listing that goes on,
      are errors. */
  method ResolveLatestThreadId(sv: Server, dir: Option<string>) returns (r: Resolved, requests: nat)
    ensures requests <= 100
    ensures
      var last := LastPage(sv);
      if last == MAX_THREAD_LIST_PAGES then r == TooManyPages && requests == last
      else
        && requests == last + 1
        && if ReplyTo(sv, last).RequestFailed? then r == Failed(ReplyTo(sv, last).message)
           else if r.NoneRecorded? then Selects(Listed(sv, last + 1), dir, None)
           else r.Found? && Selects(Listed(sv, last + 1), dir, Some(r.id))
  {
    var cursor: Option<string>, threads: seq<ThreadSummary>, scanned := None, [], 0;
    requests := 0;
    ghost var last := LastPage(sv);
    while true
      invariant requests == scanned <= last
      invariant cursor == if scanned == 0 then None else NextCursor(ReplyTo(sv, scanned - 1))
      invariant threads == Listed(sv, scanned)
      decreases MAX_THREAD_LIST_PAGES - scanned
    {
      scanned := scanned + 1;
      if scanned > MAX_THREAD_LIST_PAGES {
        return TooManyPages, requests;
      }
      var result := sv(requests, cursor);
      requests := requests + 1;
      assert result == ReplyTo(sv, requests - 1);
      assert Continues(sv, requests - 1) <==> NextCursor(result).Some?;
      if result.RequestFailed? {
        return Failed(result.message), requests;
      }
      threads := threads + result.data;
      if result.next.None? { break; }
      cursor := result.next;
    }
    var id := SelectLatestThreadId(threads, dir);
    r := if id.Some? then Found(id.value) else NoneRecorded;
  }
}
