/** The transport loops of crates/sdk/src/transport/mod.rs and the inbound
    loop of the client, run one after the other. */
module Transport {
  import opened Options
  import opened Json
  import opened Rpc
  import opened Engine

  /** One step of a transport's stream; a payload carries what parsing it as
      JSON gives. */
  datatype RawFrame = PayloadFrame(parsed: Option<Json>) | Skip | Gone(message: string) | Eof

  const PARSE_FAILURE: string := "failed to parse frame"

  function ItemOf(parsed: Option<Json>): Item {
    if parsed.Some? then Payload(parsed.value) else Broken(PARSE_FAILURE)
  }

  /** Everything the reader would put on the inbound channel. */
  function Forwarded(frames: seq<RawFrame>): seq<Item> {
    if frames == [] then []
    else
      match frames[0]
      case PayloadFrame(parsed) => [ItemOf(parsed)] + Forwarded(frames[1..])
      case Skip => Forwarded(frames[1..])
      case Gone(message) => [Broken(message)]
      case Eof => []
  }

  function Min(a: nat, b: nat): nat {
    if a < b then a else b
  }

  /** `read_json_frames`; the channel's receiver goes away after `accepted`
      items. A payload that does not parse is forwarded as an error, and the
      reader goes on. */
  method ReadJsonFrames(frames: seq<RawFrame>, accepted: nat) returns (sent: seq<Item>)
    ensures sent == Forwarded(frames)[..Min(accepted, |Forwarded(frames)|)]
    ensures forall n :: StopsAt(frames, n) && accepted >= |frames| ==> OneItemPerFrame(frames, n, sent)
  {
    forall n | StopsAt(frames, n)
      ensures OneItemPerFrame(frames, n, Forwarded(frames)) && |Forwarded(frames)| <= |frames|
    {
      ForwardedFrames(frames, n);
      CountFits(frames, n);
    }
    sent := [];
    var i := 0;
    while i < |frames|
      invariant i <= |frames| && |sent| <= accepted
      invariant Forwarded(frames) == sent + Forwarded(frames[i..])
    {
      var rest := frames[i..];
      assert rest[0] == frames[i] && rest[1..] == frames[i + 1..];
      i := i + 1;
      match rest[0] {
        case PayloadFrame(parsed) =>
          if |sent| == accepted { return; }
          sent := sent + [ItemOf(parsed)];
        case Skip =>
        case Gone(message) =>
          if |sent| < accepted { sent := sent + [Broken(message)]; }
          return;
        case Eof => return;
      }
    }
  }

  /** `write_json_frames`: frames leave in queue order until `deliver` fails,
      which is reported on the inbound channel and ends the writer. */
  method WriteJsonFrames(queue: seq<Frame>, deliver: seq<bool>) returns (written: seq<Frame>, report: Option<Item>)
    requires |deliver| == |queue|
    ensures |written| <= |queue| && written == queue[..|written|]
    ensures forall i :: 0 <= i < |written| ==> deliver[i]
    ensures report.None? <==> |written| == |queue|
    ensures report.Some? ==> report.value.Broken? && !deliver[|written|]
  {
    written, report := [], None;
    var i := 0;
    while i < |queue|
      invariant i == |written| <= |queue| && written == queue[..i] && report == None
      invariant forall j :: 0 <= j < i ==> deliver[j]
    {
      if !deliver[i] {
        report := Some(Broken("send failed"));
        return;
      }
      written := written + [queue[i]];
      i := i + 1;
    }
  }

  // ----- what is forwarded, frame by frame

  /** Frame `n` is the first that is neither payload nor skipped, or there is
      none. */
  predicate StopsAt(frames: seq<RawFrame>, n: nat) {
    && n <= |frames|
    && (forall i :: 0 <= i < n ==> frames[i].PayloadFrame? || frames[i].Skip?)
    && (n < |frames| ==> frames[n].Gone? || frames[n].Eof?)
  }

  /** How many of the first `n` frames are payloads. */
  function PayloadCount(frames: seq<RawFrame>, n: nat): nat
    requires n <= |frames|
  {
    if n == 0 then 0 else PayloadCount(frames, n - 1) + if frames[n - 1].PayloadFrame? then 1 else 0
  }

  lemma {:induction false} CountOfRest(frames: seq<RawFrame>, n: nat)
    requires 0 < n <= |frames|
    ensures PayloadCount(frames, n) == (if frames[0].PayloadFrame? then 1 else 0) + PayloadCount(frames[1..], n - 1)
  {
    if n > 1 { CountOfRest(frames, n - 1); }
  }

  /** An item says what its payload parsed to, or that it did not. */
  predicate Says(item: Item, f: RawFrame) {
    f.PayloadFrame? ==>
      match f.parsed
      case Some(v) => item == Payload(v)
      case None => item.Broken?
  }

  /** One item for each payload before the reader stops, in order; then the
      closing error if the transport says it is gone, and nothing if the
      stream just ends. */
  predicate OneItemPerFrame(frames: seq<RawFrame>, n: nat, sent: seq<Item>)
    requires n <= |frames|
  {
    var k := PayloadCount(frames, n);
    && |sent| == k + (if n < |frames| && frames[n].Gone? then 1 else 0)
    && (n < |frames| && frames[n].Gone? ==> sent[k] == Broken(frames[n].message))
    && forall i :: 0 <= i < n && PayloadCount(frames, i) < |sent| ==> Says(sent[PayloadCount(frames, i)], frames[i])
  }

  lemma {:induction false} PayloadsCount(frames: seq<RawFrame>, i: nat, n: nat)
    requires i < n <= |frames| && frames[i].PayloadFrame?
    ensures PayloadCount(frames, i) < PayloadCount(frames, n)
  {
    if i < n - 1 { PayloadsCount(frames, i, n - 1); }
  }

  lemma {:induction false} CountFits(frames: seq<RawFrame>, n: nat)
    requires n <= |frames|
    ensures PayloadCount(frames, n) <= n
  {
    if n > 0 { CountFits(frames, n - 1); }
  }

  lemma {:induction false} ForwardedFrames(frames: seq<RawFrame>, n: nat)
    requires StopsAt(frames, n)
    ensures OneItemPerFrame(frames, n, Forwarded(frames))
  {
    if n > 0 {
      var rest := frames[1..];
      assert forall i :: 0 <= i < n - 1 ==> rest[i] == frames[i + 1];
      ForwardedFrames(rest, n - 1);
      OneMoreFrame(frames, n, Forwarded(rest));
    }
  }

  lemma {:induction false} OneMoreFrame(frames: seq<RawFrame>, n: nat, sent: seq<Item>)
    requires n > 0 && StopsAt(frames, n) && OneItemPerFrame(frames[1..], n - 1, sent)
    ensures
      OneItemPerFrame(frames, n, (if frames[0].PayloadFrame? then [ItemOf(frames[0].parsed)] else []) + sent)
  {
    var head := if frames[0].PayloadFrame? then [ItemOf(frames[0].parsed)] else [];
    var rest, all := frames[1..], head + sent;
    CountOfRest(frames, n);
    assert PayloadCount(frames, n) == |head| + PayloadCount(rest, n - 1);
    forall i | 0 <= i < n && PayloadCount(frames, i) < |all| ensures Says(all[PayloadCount(frames, i)], frames[i]) {
      if i > 0 {
        CountOfRest(frames, i);
        assert Says(sent[PayloadCount(rest, i - 1)], rest[i - 1]);
      }
    }
  }
}
