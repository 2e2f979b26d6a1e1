/** UTF-8 (section 3 of RFC 3629) as far as Rust's `String` rests on it. */
module Utf8 {
  import opened Options

  type byte = x: int | 0 <= x < 256

  function Encode(c: char): (bs: seq<byte>)
    ensures 1 <= |bs| <= 4
    ensures !Continues(bs[0]) && forall i :: 0 < i < |bs| ==> Continues(bs[i])
    ensures |bs| == WidthOf(bs[0])
  {
    var n := c as int;
    if n < 0x80 then [n]
    else if n < 0x800 then [0xC0 + n / 0x40, 0x80 + n % 0x40]
    else if n < 0x1_0000 then [0xE0 + n / 0x1000, 0x80 + n / 0x40 % 0x40, 0x80 + n % 0x40]
    else [0xF0 + n / 0x4_0000, 0x80 + n / 0x1000 % 0x40, 0x80 + n / 0x40 % 0x40, 0x80 + n % 0x40]
  }

  predicate Continues(b: byte) {
    0x80 <= b < 0xC0
  }

  /** The length of the sequence that starts with `b`. */
  function WidthOf(b: byte): nat {
    if b < 0x80 then 1 else if b < 0xE0 then 2 else if b < 0xF0 then 3 else 4
  }

  function EncodeAll(s: string): seq<byte> {
    if s == "" then [] else EncodeAll(s[..|s| - 1]) + Encode(s[|s| - 1])
  }

  lemma {:induction false} EncodeConcat(s: string, t: string)
    ensures EncodeAll(s + t) == EncodeAll(s) + EncodeAll(t)
    decreases |t|
  {
    if t == "" {
      assert s + t == s;
    } else {
      var u := t[..|t| - 1];
      assert (s + t)[..|s + t| - 1] == s + u;
      EncodeConcat(s, u);
    }
  }

  lemma EncodeOne(c: char)
    ensures EncodeAll([c]) == Encode(c)
  {
    assert [c][..0] == "";
  }

  lemma EncodeCons(s: string)
    requires s != ""
    ensures EncodeAll(s) == Encode(s[0]) + EncodeAll(s[1..])
  {
    EncodeOne(s[0]);
    EncodeConcat([s[0]], s[1..]);
    assert s == [s[0]] + s[1..];
  }

  // ----- decoding

  function CharAt(n: int): Option<char> {
    if 0 <= n < 0xD800 || 0xE000 <= n < 0x11_0000 then Some(n as char) else None
  }

  /** The first character, if the bytes start with the encoding of one. Long
      forms, surrogates and values above 10FFFF are refused. */
  function DecodeFirst(bs: seq<byte>): Option<char>
    requires bs != []
  {
    var w := WidthOf(bs[0]);
    if Continues(bs[0]) || |bs| < w then None
    else if w == 1 then CharAt(bs[0])
    else if !Continues(bs[1]) then None
    else if w == 2 then
      var n := Value2(bs[0], bs[1]);
      if n < 0x80 then None else CharAt(n)
    else if !Continues(bs[2]) then None
    else if w == 3 then
      var n := Value3(bs[0], bs[1], bs[2]);
      if n < 0x800 then None else CharAt(n)
    else if !Continues(bs[3]) then None
    else
      var n := Value4(bs[0], bs[1], bs[2], bs[3]);
      if n < 0x1_0000 then None else CharAt(n)
  }

  function Value2(a: int, b: int): int {
    (a - 0xC0) * 0x40 + (b - 0x80)
  }

  function Value3(a: int, b: int, c: int): int {
    (a - 0xE0) * 0x1000 + (b - 0x80) * 0x40 + (c - 0x80)
  }

  function Value4(a: int, b: int, c: int, d: int): int {
    (a - 0xF0) * 0x4_0000 + (b - 0x80) * 0x1000 + (c - 0x80) * 0x40 + (d - 0x80)
  }

  function Decode(bs: seq<byte>): Option<string> {
    if bs == [] then Some("")
    else
      var c := DecodeFirst(bs);
      if c.None? then None
      else
        assert WidthOf(bs[0]) <= |bs|;
        var rest := Decode(bs[WidthOf(bs[0])..]);
        if rest.None? then None else Some([c.value] + rest.value)
  }

  lemma SixBits(q: nat, r: nat)
    requires r < 0x40
    ensures (q * 0x40 + r) / 0x40 == q && (q * 0x40 + r) % 0x40 == r
  {
  }

  lemma TwelveBits(n: nat)
    ensures n / 0x1000 == n / 0x40 / 0x40
  {
  }

  lemma EighteenBits(n: nat)
    ensures n / 0x4_0000 == n / 0x1000 / 0x40
  {
  }

  /** The lead bits and the three groups of six bits of a number. */
  lemma Bits(a: nat, b: nat, c: nat, d: nat)
    requires b < 0x40 && c < 0x40 && d < 0x40
    ensures var n := ((a * 0x40 + b) * 0x40 + c) * 0x40 + d;
      && n / 0x4_0000 == a && n / 0x1000 == a * 0x40 + b && n / 0x40 == (a * 0x40 + b) * 0x40 + c
      && n / 0x1000 % 0x40 == b && n / 0x40 % 0x40 == c && n % 0x40 == d
  {
    var x := a * 0x40 + b;
    var y := x * 0x40 + c;
    var n := y * 0x40 + d;
    SixBits(a, b);
    SixBits(x, c);
    SixBits(y, d);
    TwelveBits(n);
    EighteenBits(n);
  }

  lemma Groups(n: nat)
    ensures n == n / 0x4_0000 * 0x4_0000 + n / 0x1000 % 0x40 * 0x1000 + n / 0x40 % 0x40 * 0x40 + n % 0x40
    ensures n == n / 0x1000 * 0x1000 + n / 0x40 % 0x40 * 0x40 + n % 0x40
    ensures n == n / 0x40 * 0x40 + n % 0x40
  {
    TwelveBits(n);
    EighteenBits(n);
  }

  lemma DecodeFirstOfEncode(c: char, rest: seq<byte>)
    ensures DecodeFirst(Encode(c) + rest) == Some(c)
  {
    Groups(c as int);
    var bs := Encode(c) + rest;
    assert bs[..|Encode(c)|] == Encode(c);
  }

  lemma EncodeOfValue2(a: byte, b: byte)
    requires WidthOf(a) == 2 && !Continues(a) && Continues(b) && Value2(a, b) >= 0x80
    ensures Encode(Value2(a, b) as char) == [a, b]
  {
    Bits(0, 0, a as int - 0xC0, b as int - 0x80);
  }

  lemma EncodeOfValue3(a: byte, b: byte, c: byte)
    requires WidthOf(a) == 3 && Continues(b) && Continues(c)
    requires Value3(a, b, c) >= 0x800 && CharAt(Value3(a, b, c)).Some?
    ensures Encode(CharAt(Value3(a, b, c)).value) == [a, b, c]
  {
    Bits(0, a as int - 0xE0, b as int - 0x80, c as int - 0x80);
  }

  lemma EncodeOfValue4(a: byte, b: byte, c: byte, d: byte)
    requires WidthOf(a) == 4 && Continues(b) && Continues(c) && Continues(d)
    requires Value4(a, b, c, d) >= 0x1_0000 && CharAt(Value4(a, b, c, d)).Some?
    ensures Encode(CharAt(Value4(a, b, c, d)).value) == [a, b, c, d]
  {
    Bits(a as int - 0xF0, b as int - 0x80, c as int - 0x80, d as int - 0x80);
  }

  lemma EncodeOfDecodeFirst(bs: seq<byte>)
    requires bs != [] && DecodeFirst(bs).Some?
    ensures WidthOf(bs[0]) <= |bs| && Encode(DecodeFirst(bs).value) == bs[..WidthOf(bs[0])]
  {
    var w := WidthOf(bs[0]);
    if w == 2 {
      EncodeOfValue2(bs[0], bs[1]);
    } else if w == 3 {
      EncodeOfValue3(bs[0], bs[1], bs[2]);
    } else if w == 4 {
      EncodeOfValue4(bs[0], bs[1], bs[2], bs[3]);
    }
  }

  lemma {:induction false} DecodeOfEncode(s: string)
    ensures Decode(EncodeAll(s)) == Some(s)
  {
    if s != "" {
      var rest := EncodeAll(s[1..]);
      EncodeCons(s);
      DecodeOfEncode(s[1..]);
      DecodeFirstOfEncode(s[0], rest);
      assert (Encode(s[0]) + rest)[|Encode(s[0])|..] == rest;
      assert s == [s[0]] + s[1..];
    }
  }

  lemma {:induction false} EncodeOfDecode(bs: seq<byte>)
    requires Decode(bs).Some?
    ensures EncodeAll(Decode(bs).value) == bs
    decreases |bs|
  {
    if bs != [] {
      var w := WidthOf(bs[0]);
      EncodeOfDecodeFirst(bs);
      EncodeOfDecode(bs[w..]);
      FirstThenRest(DecodeFirst(bs).value, Decode(bs[w..]).value, bs, w);
    }
  }

  lemma FirstThenRest(c: char, rest: string, bs: seq<byte>, w: nat)
    requires w <= |bs| && Encode(c) == bs[..w] && EncodeAll(rest) == bs[w..]
    ensures EncodeAll([c] + rest) == bs
  {
    EncodeCons([c] + rest);
    assert ([c] + rest)[1..] == rest;
    assert bs == bs[..w] + bs[w..];
  }

  /** Decoding gives back exactly what was encoded, and nothing else decodes. */
  lemma DecodeIff(bs: seq<byte>, s: string)
    ensures Decode(bs) == Some(s) <==> bs == EncodeAll(s)
  {
    DecodeOfEncode(s);
    if Decode(bs).Some? { EncodeOfDecode(bs); }
  }

  // ----- boundaries

  /** `str::is_char_boundary` */
  predicate IsBoundary(bs: seq<byte>, i: nat) {
    i == 0 || i == |bs| || (i < |bs| && !Continues(bs[i]))
  }

  /** A position is a boundary exactly when it lies between two characters. */
  lemma BoundaryIff(s: string, i: nat)
    ensures IsBoundary(EncodeAll(s), i) <==> exists k: nat :: k <= |s| && i == |EncodeAll(s[..k])|
  {
    if IsBoundary(EncodeAll(s), i) {
      var k := CharsBefore(s, i);
    }
    if k: nat :| k <= |s| && i == |EncodeAll(s[..k])| {
      BetweenChars(s[..k], s[k..]);
      assert s == s[..k] + s[k..];
    }
  }

  lemma BetweenChars(s: string, t: string)
    ensures EncodeAll(s + t) == EncodeAll(s) + EncodeAll(t)
    ensures IsBoundary(EncodeAll(s + t), |EncodeAll(s)|)
  {
    EncodeConcat(s, t);
    if t != "" {
      EncodeCons(t);
    }
  }

  lemma {:induction false} CharsBefore(s: string, i: nat) returns (k: nat)
    requires IsBoundary(EncodeAll(s), i)
    ensures k <= |s| && i == |EncodeAll(s[..k])|
  {
    var bs := EncodeAll(s);
    if i == |bs| {
      k := |s|;
      assert s[..k] == s;
    } else if i == 0 {
      k := 0;
    } else {
      var init, last := s[..|s| - 1], Encode(s[|s| - 1]);
      var at := |EncodeAll(init)|;
      assert forall j :: at <= j < |bs| ==> bs[j] == last[j - at];
      k := CharsBefore(init, i);
      assert s[..k] == init[..k];
    }
  }

  /** A byte that goes on. */
  predicate Follows(b: int) {
    0x80 <= b < 0xC0
  }

  /** The table of RFC 3629: how many bytes a character takes, the ranges they
      are in, and the number their payload bits make. */
  predicate IsEncodingOf(bs: seq<int>, n: int) {
    if n < 0x80 then bs == [n]
    else if n < 0x800 then
      |bs| == 2 && 0xC2 <= bs[0] < 0xE0 && Follows(bs[1]) && n == (bs[0] - 0xC0) * 0x40 + (bs[1] - 0x80)
    else if n < 0x1_0000 then
      && |bs| == 3 && 0xE0 <= bs[0] < 0xF0 && Follows(bs[1]) && Follows(bs[2])
      && n == (bs[0] - 0xE0) * 0x1000 + (bs[1] - 0x80) * 0x40 + (bs[2] - 0x80)
    else
      && |bs| == 4 && 0xF0 <= bs[0] < 0xF5 && Follows(bs[1]) && Follows(bs[2]) && Follows(bs[3])
      && n == (bs[0] - 0xF0) * 0x4_0000 + (bs[1] - 0x80) * 0x1000 + (bs[2] - 0x80) * 0x40 + (bs[3] - 0x80)
  }

  lemma EncodeIs(c: char)
    ensures IsEncodingOf(Encode(c), c as int)
  {
    Groups(c as int);
  }
}
