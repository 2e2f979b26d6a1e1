/** The whole inbound path: what the transport delivers against what the
    client processes. */
module InboundPath {
  import opened Options
  import opened Sequences
  import opened Json
  import opened Rpc
  import opened Engine
  import opened Effects
  import opened Transport

  /** The parsed payloads before the first bad frame: one that does not parse,
      one that is no JSON-RPC message, a transport error, or the end. */
  function PayloadsBeforeBad(frames: seq<RawFrame>): seq<Json> {
    if frames == [] then []
    else
      match frames[0]
      case PayloadFrame(Some(v)) =>
        if ClassifyIncoming(v).Invalid? then [] else [v] + PayloadsBeforeBad(frames[1..])
      case PayloadFrame(None) => []
      case Skip => PayloadsBeforeBad(frames[1..])
      case Gone(_) => []
      case Eof => []
  }

  function Payloads(vs: seq<Json>): seq<Item> {
    seq(|vs|, i requires 0 <= i < |vs| => Payload(vs[i]))
  }

  lemma {:induction false} ForwardedGoodPrefix(frames: seq<RawFrame>)
    ensures var items := Forwarded(frames); items[..FirstBad(items)] == Payloads(PayloadsBeforeBad(frames))
  {
    if frames != [] {
      ForwardedGoodPrefix(frames[1..]);
      var items, rest := Forwarded(frames), Forwarded(frames[1..]);
      if frames[0].PayloadFrame? {
        assert items[1..] == rest;
        if Readable(items[0]) {
          assert items[..FirstBad(items)] == [items[0]] + rest[..FirstBad(rest)];
          assert PayloadsBeforeBad(frames) == [items[0].value] + PayloadsBeforeBad(frames[1..]);
        }
      }
    }
  }

  lemma CutShort(items: seq<Item>, at: nat, r: seq<Item>, n: nat, k: nat)
    requires n == FirstBad(r) && k == FirstBad(items) && at <= |items|
    requires forall i :: 0 <= i < |r| && i < at ==> i < |items| && r[i] == items[i]
    requires |r| > at ==> r[at].Broken?
    ensures n <= at && n <= k && r[..n] == items[..n]
    ensures n < |r| ==> n == Min(at, k)
  {
    assert forall i :: 0 <= i < n ==> Readable(r[i]);
    forall i | 0 <= i < n ensures Readable(items[i]) {
      assert r[i] == items[i];
    }
  }

  lemma Interrupted(items: seq<Item>, at: nat, r: seq<Item>, message: string)
    requires at <= |items| && r <= items[..at] + [Broken(message)] + items[at..]
    ensures
      var n, good := FirstBad(r), items[..FirstBad(items)];
      && n <= at && n <= |good| && r[..n] == good[..n]
      && (n < |r| ==> n == Min(at, |good|))
  {
    var n := FirstBad(r);
    CutShort(items, at, r, n, FirstBad(items));
    Prefixes(items, n, FirstBad(items));
  }

  /** In every run whose inbound channel was filled by the reader, the frames
      processed are the payloads before the first bad one: a prefix of them
      while the loop runs, exactly all of them once it has broken, whatever
      comes behind the bad frame, or has received everything. */
  lemma ProcessedArePayloads(s: State, frames: seq<RawFrame>)
    requires Reachable(s) && s.received <= Forwarded(frames)
    ensures
      var all := Payloads(PayloadsBeforeBad(frames));
      && (exists n :: 0 <= n <= |all| && s.handled == Meanings(all[..n]))
      && (Broke(s.loop) || s.received == Forwarded(frames) ==> s.handled == Meanings(all))
  {
    var all := Payloads(PayloadsBeforeBad(frames));
    ForwardedGoodPrefix(frames);
    ProcessedIsGoodPrefix(s);
    GoodSoFar(Forwarded(frames), s.received);
    assert all[..|all|] == all;
  }

  lemma SameFirstBad(items: seq<Item>, r: seq<Item>)
    requires |r| <= |items| && forall i :: 0 <= i < |r| ==> r[i] == items[i]
    ensures FirstBad(r) <= FirstBad(items)
    ensures FirstBad(r) < |r| || |r| == |items| ==> FirstBad(r) == FirstBad(items)
  {
    var n, k := FirstBad(r), FirstBad(items);
    assert forall i :: 0 <= i < n ==> Readable(items[i]) by {
      forall i | 0 <= i < n ensures Readable(items[i]) { assert r[i] == items[i]; }
    }
  }

  lemma TakenFrom(items: seq<Item>, r: seq<Item>)
    requires r <= items
    ensures r == items[..|r|] && forall i :: 0 <= i < |r| ==> r[i] == items[i]
  {
  }

  lemma GoodSoFar(items: seq<Item>, r: seq<Item>)
    requires r <= items
    ensures
      var n, good := FirstBad(r), items[..FirstBad(items)];
      && n <= |good| && r[..n] == good[..n]
      && (n < |r| || r == items ==> n == |good|)
  {
    TakenFrom(items, r);
    SameFirstBad(items, r);
    Prefixes(items, FirstBad(r), |r|);
    Prefixes(items, FirstBad(r), FirstBad(items));
  }

  /** A writer error slipped in at any point only cuts the prefix short: once
      the loop has broken, exactly the payloads up to that point or up to the
      first bad frame, whichever comes first, were processed. */
  lemma WriterErrorCutsShort(s: State, frames: seq<RawFrame>, at: nat, message: string)
    requires at <= |Forwarded(frames)|
    requires Reachable(s) && s.received <= Forwarded(frames)[..at] + [Broken(message)] + Forwarded(frames)[at..]
    ensures
      var all := Payloads(PayloadsBeforeBad(frames));
      && (exists n :: 0 <= n <= |all| && n <= at && s.handled == Meanings(all[..n]))
      && (Broke(s.loop) ==> s.handled == Meanings(all[..Min(at, |all|)]))
  {
    ForwardedGoodPrefix(frames);
    ProcessedIsGoodPrefix(s);
    Interrupted(Forwarded(frames), at, s.received, message);
  }

  // ----- when the loop breaks

  /** A frame that breaks the loop: the transport is gone, or a payload that
      does not parse or is no message. */
  predicate Breaks(f: RawFrame) {
    match f
    case PayloadFrame(None) => true
    case PayloadFrame(Some(v)) => ClassifyIncoming(v).Invalid?
    case Skip => false
    case Gone(_) => true
    case Eof => false
  }

  /** Some frame breaks the loop, and the stream has not ended before it. */
  predicate SomeBreaks(frames: seq<RawFrame>) {
    exists i :: 0 <= i < |frames| && Breaks(frames[i]) && forall j :: 0 <= j < i ==> !frames[j].Eof?
  }

  /** The frame an item stands for. */
  lemma {:induction false} FrameOf(frames: seq<RawFrame>, n: nat, k: nat) returns (i: nat)
    requires n <= |frames| && k < PayloadCount(frames, n)
    ensures i < n && frames[i].PayloadFrame? && PayloadCount(frames, i) == k
  {
    i := n - 1;
    if !frames[i].PayloadFrame? || k < PayloadCount(frames, i) { i := FrameOf(frames, n - 1, k); }
  }

  lemma {:induction false} BadItemHasFrame(frames: seq<RawFrame>, n: nat, sent: seq<Item>, k: nat)
    requires StopsAt(frames, n) && OneItemPerFrame(frames, n, sent) && k < |sent| && !Readable(sent[k])
    ensures SomeBreaks(frames)
  {
    if k < PayloadCount(frames, n) {
      var i := FrameOf(frames, n, k);
      assert Breaks(frames[i]);
    } else {
      assert Breaks(frames[n]);
    }
  }

  lemma {:induction false} BadFrameHasItem(frames: seq<RawFrame>, n: nat, sent: seq<Item>) returns (k: nat)
    requires StopsAt(frames, n) && OneItemPerFrame(frames, n, sent) && SomeBreaks(frames)
    ensures k < |sent| && !Readable(sent[k])
  {
    var i :| 0 <= i < |frames| && Breaks(frames[i]) && forall j :: 0 <= j < i ==> !frames[j].Eof?;
    if i < n {
      PayloadsCount(frames, i, n);
      k := PayloadCount(frames, i);
    } else {
      assert frames[n].Gone?;
      k := PayloadCount(frames, n);
    }
  }

  /** Once the loop has broken, or received everything the reader sent: it has
      broken exactly if, before any end of the stream, a payload did not parse
      or was no message, or the transport was gone. */
  lemma LoopBreaksIff(s: State, frames: seq<RawFrame>, n: nat, sent: seq<Item>)
    requires Reachable(s) && StopsAt(frames, n) && OneItemPerFrame(frames, n, sent)
    requires s.received <= sent && (s.received == sent || Broke(s.loop))
    ensures Broke(s.loop) <==> SomeBreaks(frames)
  {
    var steps :| Run(INIT, steps) == Some(s);
    RunKeepsEffects(steps);
    if Broke(s.loop) {
      BadItemHasFrame(frames, n, sent, |s.received| - 1);
    } else if SomeBreaks(frames) {
      var k := BadFrameHasItem(frames, n, sent);
      assert false;
    }
  }
}
