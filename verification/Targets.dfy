/** Listen targets and their lock keys (crates/sdk/src/transport/ws_daemon.rs). */
module Targets {
  import opened TurnPump

  /** A URL's host, as the URL parser classifies it; the texts are the ones
      `ToString` gives. */
  datatype Host = Ipv4(text: string) | Ipv6(text: string) | Domain(text: string)

  datatype WsTarget = WsTarget(host: Host, port: nat)

  const LOCALHOST: string := "127.0.0.1"

  function Authority(h: Host): string {
    if h.Ipv6? then "[" + h.text + "]" else h.text
  }

  predicate IsLocalName(h: Host) {
    h.Domain? && AsciiLower(h.text) == "localhost"
  }

  function Normalized(t: WsTarget): WsTarget {
    if IsLocalName(t.host) then WsTarget(Ipv4(LOCALHOST), t.port) else t
  }

  type Key = (string, nat)

  /** `lock_key` */
  function LockKey(t: WsTarget): Key {
    var n := Normalized(t);
    (AsciiLower(Authority(n.host)), n.port)
  }

  predicate IsNumeric(s: string) {
    forall i :: 0 <= i < |s| ==> s[i] == '.' || '0' <= s[i] <= '9'
  }

  /** What the URL parser guarantees: a host of digits and dots is an address,
      and a domain has no brackets. */
  predicate Parsed(h: Host) {
    match h
    case Ipv4(text) => IsNumeric(text)
    case Ipv6(_) => true
    case Domain(text) => text != "" && text[0] != '[' && !IsNumeric(text)
  }

  /** The same host, however it is written. */
  predicate SameHost(g: Host, h: Host) {
    || (IsLocalName(g) && IsLocalName(h))
    || (IsLocalName(g) && h == Ipv4(LOCALHOST))
    || (g == Ipv4(LOCALHOST) && IsLocalName(h))
    || (g.Ipv4? && h.Ipv4? && g.text == h.text)
    || (g.Ipv6? && h.Ipv6? && AsciiLower(g.text) == AsciiLower(h.text))
    || (g.Domain? && h.Domain? && AsciiLower(g.text) == AsciiLower(h.text))
  }

  lemma LowerOfNumeric(s: string)
    ensures IsNumeric(s) <==> IsNumeric(AsciiLower(s))
    ensures IsNumeric(s) ==> AsciiLower(s) == s
  {
    assert forall i :: 0 <= i < |s| ==> AsciiLower(s)[i] == Lower(s[i]);
    if IsNumeric(AsciiLower(s)) {
      forall i | 0 <= i < |s| ensures s[i] == '.' || '0' <= s[i] <= '9' {
        assert AsciiLower(s)[i] == Lower(s[i]);
      }
    }
  }

  lemma LowerOfBrackets(s: string)
    ensures AsciiLower("[" + s + "]") == "[" + AsciiLower(s) + "]"
  {
  }

  /** Two starters share a lock exactly when they name the same host and port. */
  lemma LockKeyIff(t: WsTarget, u: WsTarget)
    requires Parsed(t.host) && Parsed(u.host)
    ensures LockKey(t) == LockKey(u) <==> SameHost(t.host, u.host) && t.port == u.port
  {
    KeyText(t);
    KeyText(u);
    var k, m := LockKey(t).0, LockKey(u).0;
    if t.host.Ipv6? && u.host.Ipv6? && k == m {
      assert k[1..|k| - 1] == AsciiLower(t.host.text) && m[1..|m| - 1] == AsciiLower(u.host.text);
    }
  }

  /** The lock key tells an address from a name, and both from a bracketed one. */
  lemma KeyText(t: WsTarget)
    requires Parsed(t.host)
    ensures LockKey(t).1 == t.port
    ensures
      var k := LockKey(t).0;
      if IsLocalName(t.host) then k == LOCALHOST && IsNumeric(k)
      else
        match t.host
        case Ipv4(text) => k == text && IsNumeric(k)
        case Ipv6(text) => k == "[" + AsciiLower(text) + "]" && k[0] == '[' && !IsNumeric(k)
        case Domain(text) => k == AsciiLower(text) && k != "" && k[0] != '[' && !IsNumeric(k)
  {
    LowerOfNumeric(t.host.text);
    LowerOfNumeric(LOCALHOST);
    LowerOfBrackets(t.host.text);
    if t.host.Domain? {
      assert AsciiLower(t.host.text)[0] == Lower(t.host.text[0]);
    }
  }

  /** Texts agree in lower case exactly if they differ at most in the case of
      ASCII letters. */
  lemma CaseIsIgnored(s: string, t: string)
    ensures AsciiLower(s) == AsciiLower(t) <==>
      |s| == |t| && forall i :: 0 <= i < |s| ==>
        || s[i] == t[i]
        || ('a' <= s[i] <= 'z' && s[i] as int == t[i] as int + 32)
        || ('a' <= t[i] <= 'z' && t[i] as int == s[i] as int + 32)
  {
    assert |AsciiLower(s)| == |s| && |AsciiLower(t)| == |t|;
    forall i | 0 <= i < |s| && i < |t|
      ensures AsciiLower(s)[i] == AsciiLower(t)[i] <==>
        || s[i] == t[i]
        || ('a' <= s[i] <= 'z' && s[i] as int == t[i] as int + 32)
        || ('a' <= t[i] <= 'z' && t[i] as int == s[i] as int + 32)
    {
      SameLower(s[i], t[i]);
    }
    if AsciiLower(s) == AsciiLower(t) {
      assert |s| == |t| && forall i :: 0 <= i < |s| ==> AsciiLower(s)[i] == AsciiLower(t)[i];
    }
  }

  lemma SameLower(c: char, d: char)
    ensures Lower(c) == Lower(d) <==>
      || c == d
      || ('a' <= c <= 'z' && c as int == d as int + 32)
      || ('a' <= d <= 'z' && d as int == c as int + 32)
  {
    LowerIff(c, Lower(d));
    LowerIff(d, Lower(c));
  }
}
