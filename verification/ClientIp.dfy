/**
 * The address a session is bound to is read from the API request (extractClientIP in
 * proxy/internal/api/sessions.go); the address a connection comes from is read by the
 * gatekeeper (extractIP in proxy/internal/session/gatekeeper.go).
 */
module ClientIp {
  import opened Wrappers
  import opened Text

  function ExtractIP(addr: string): string {
    match LastIndex(addr, ':')
    case None => addr
    case Some(i) => Unbracket(addr[..i])
  }

  function Unbracket(ip: string): string {
    if |ip| > 1 && ip[0] == '[' && ip[|ip| - 1] == ']' then ip[1..|ip| - 1] else ip
  }

  /** unicode.IsSpace within ASCII. */
  predicate White(c: char) {
    c == ' ' || 9 <= c as int <= 13
  }

  lemma WhiteIs(c: char)
    ensures White(c) <==> c in {' ', '\t', '\n', 11 as char, 12 as char, '\r'}
  {
  }

  predicate AllWhite(s: string) {
    forall i | 0 <= i < |s| :: White(s[i])
  }

  function TrimLeft(s: string): string {
    if s != [] && White(s[0]) then TrimLeft(s[1..]) else s
  }

  function TrimRight(s: string): string {
    if s != [] && White(s[|s| - 1]) then TrimRight(s[..|s| - 1]) else s
  }

  /** strings.TrimSpace */
  function Trim(s: string): string {
    TrimRight(TrimLeft(s))
  }

  /** The forwarding headers win over the address of the peer. */
  function ExtractClientIP(forwardedFor: string, realIP: string, remoteAddr: string): string {
    if forwardedFor != "" then Trim(Split(forwardedFor, ',')[0])
    else if realIP != "" then realIP
    else PeerIP(remoteAddr)
  }

  function PeerIP(addr: string): string {
    match LastIndex(addr, ':')
    case None => addr
    case Some(i) =>
      if addr[0] == '[' && Index(addr, "]").Some? then addr[1..Index(addr, "]").value] else addr[..i]
  }

  /**
   * Without forwarding headers the two readings of any address agree, except where there is a
   * colon and a bracketed host is not closed right before the last one.
   */
  lemma ReadingsAgree(addr: string)
    ensures PeerIP(addr) == ExtractIP(addr) <==>
            (':' in addr && addr[0] == '[' && Index(addr, "]").Some? ==> LastIndex(addr, ':') == Some(Index(addr, "]").value + 1))
  {
    if ':' !in addr {
      assert LastIndex(addr, ':').None?;
    } else if addr[0] == '[' && Index(addr, "]").Some? {
      BracketedReading(addr, Index(addr, "]").value, LastIndex(addr, ':').value);
    } else {
      PlainReading(addr, LastIndex(addr, ':').value);
    }
  }

  /** An address without a port is read as it stands, in both places. */
  lemma BareReadsAsItself(addr: string)
    requires ':' !in addr
    ensures PeerIP(addr) == addr == ExtractIP(addr)
  {
    assert LastIndex(addr, ':').None?;
  }

  /** The first ']' found as a string is the first ']' found as a character. */
  lemma FirstBracket(addr: string)
    ensures match Index(addr, "]")
            case Some(b) => b < |addr| && addr[b] == ']' && ']' !in addr[..b]
            case None => ']' !in addr
  {
    forall j | 0 <= j < |addr| ensures "]" <= addr[j..] <==> addr[j] == ']' {
    }
    match Index(addr, "]") {
      case Some(b) => assert "]" <= addr[b..];
      case None =>
    }
  }

  lemma PlainReading(addr: string, i: nat)
    requires LastIndex(addr, ':') == Some(i) && (addr[0] != '[' || Index(addr, "]").None?)
    ensures PeerIP(addr) == ExtractIP(addr)
  {
    FirstBracket(addr);
    var ip := addr[..i];
    assert |ip| > 1 ==> ip[|ip| - 1] in addr && ip[0] == addr[0];
  }

  lemma BracketedReading(addr: string, b: nat, i: nat)
    requires LastIndex(addr, ':') == Some(i) && addr[0] == '[' && Index(addr, "]") == Some(b)
    ensures PeerIP(addr) == ExtractIP(addr) <==> b + 1 == i
  {
    FirstBracket(addr);
    if b + 1 == i {
      ClosedBeforePort(addr, b, i);
    } else {
      Mismatch(addr, b, i);
    }
  }

  lemma ClosedBeforePort(addr: string, b: nat, i: nat)
    requires LastIndex(addr, ':') == Some(i) && 0 < b < |addr| && addr[0] == '[' && addr[b] == ']' && b + 1 == i
    ensures ExtractIP(addr) == addr[1..b]
  {
    InnerPart(addr[..i], addr, b);
  }

  lemma InnerPart(ip: string, addr: string, b: nat)
    requires 0 < b < |addr| && ip == addr[..b + 1] && addr[0] == '[' && addr[b] == ']'
    ensures Unbracket(ip) == addr[1..b]
  {
    assert ip[0] == '[' && ip[b] == ']';
    assert ip[1..b] == addr[1..b];
  }

  lemma Mismatch(addr: string, b: nat, i: nat)
    requires 0 < b < |addr| && i < |addr| && addr[0] == '[' && addr[b] == ']' && addr[i] == ':' && b + 1 != i
    requires ']' !in addr[..b] && LastIndex(addr, ':') == Some(i)
    ensures addr[1..b] != ExtractIP(addr)
  {
    var ip := addr[..i];
    if |ip| > 1 && ip[|ip| - 1] == ']' {
      assert Unbracket(ip) == ip[1..|ip| - 1];
      assert |ip[1..|ip| - 1]| == i - 2;
    } else if addr[1..b] == ip {
      Shifted(addr, b);
    }
  }

  /** A text that equals itself shifted by one is a single character repeated. */
  lemma {:induction false} Shifted(addr: string, n: nat)
    requires 0 < n <= |addr| && addr[1..n] == addr[..n - 1]
    ensures forall j | 0 <= j < n :: addr[j] == addr[0]
  {
    if n > 1 {
      assert addr[1..n - 1] == addr[1..n][..n - 2] == addr[..n - 2];
      Shifted(addr, n - 1);
      assert addr[n - 1] == addr[1..n][n - 2] == addr[n - 2];
    }
  }

  /** Every address the Go library forms from a host and a port reads as its host in both places. */
  lemma HostPortReadsAsHost(host: string, port: string)
    requires ':' !in port && ']' !in host && '[' !in host
    ensures ':' in host ==> PeerIP("[" + host + "]:" + port) == host == ExtractIP("[" + host + "]:" + port)
    ensures ':' !in host && host != "" ==> PeerIP(host + ":" + port) == host == ExtractIP(host + ":" + port)
  {
    BracketedReads(host, port);
    var b := host + ":" + port;
    LastAt(b, |host|, port);
    assert b[..|host|] == host;
  }

  lemma BracketedReads(host: string, port: string)
    requires ':' !in port && ']' !in host
    ensures PeerIP("[" + host + "]:" + port) == host == ExtractIP("[" + host + "]:" + port)
  {
    var a := "[" + host + "]:" + port;
    LastAt(a, |host| + 2, port);
    FirstClose(a, host, port);
    assert a[1..|host| + 1] == host;
    InnerPart(a[..|host| + 2], a, |host| + 1);
  }

  lemma FirstClose(a: string, host: string, port: string)
    requires a == "[" + host + "]:" + port && ']' !in host
    ensures Index(a, "]") == Some(|host| + 1)
  {
    forall j | 0 <= j <= |host| ensures !("]" <= a[j..]) {
      assert a[j] == (if j == 0 then '[' else host[j - 1]);
      assert a[j..][0] == a[j] != ']';
    }
    FirstOccurrence(a, "]", |host| + 1);
  }

  lemma {:induction false} LastAt(s: string, i: nat, port: string)
    requires i < |s| && s[i] == ':' && s[i + 1..] == port && ':' !in port
    ensures LastIndex(s, ':') == Some(i)
  {
    var n := |s| - 1;
    if port != "" {
      assert s[n] == port[|port| - 1];
      assert s[..n][i + 1..] == port[..|port| - 1];
      LastAt(s[..n], i, port[..|port| - 1]);
    }
  }

  // ---- What the session is bound to ----

  /** The IP check of handleConnection. */
  predicate Admits(allowedIP: string, remoteAddr: string) {
    allowedIP == "" || ExtractIP(remoteAddr) == allowedIP
  }

  /** net.JoinHostPort, which forms the addresses of connections. */
  function JoinHostPort(host: string, port: string): string {
    if ':' in host then "[" + host + "]:" + port else host + ":" + port
  }

  lemma {:induction false} TrimLeftPads(pad: string, s: string)
    requires AllWhite(pad) && (s == "" || !White(s[0]))
    ensures TrimLeft(pad + s) == s
  {
    if pad == "" {
      assert pad + s == s;
    } else {
      assert (pad + s)[0] == pad[0] && (pad + s)[1..] == pad[1..] + s;
      TrimLeftPads(pad[1..], s);
    }
  }

  lemma {:induction false} TrimRightPads(s: string, pad: string)
    requires AllWhite(pad) && (s == "" || !White(s[|s| - 1]))
    ensures TrimRight(s + pad) == s
    decreases |pad|
  {
    if pad == "" {
      assert s + pad == s;
    } else {
      var n := |pad| - 1;
      assert (s + pad)[|s + pad| - 1] == pad[n] && (s + pad)[..|s + pad| - 1] == s + pad[..n];
      TrimRightPads(s, pad[..n]);
    }
  }

  lemma TrimPads(before: string, host: string, after: string)
    requires AllWhite(before) && AllWhite(after) && host != "" && !White(host[0]) && !White(host[|host| - 1])
    ensures Trim(before + host + after) == host
  {
    assert before + host + after == before + (host + after);
    TrimLeftPads(before, host + after);
    TrimRightPads(host, after);
  }

  /** Nothing is left of a text exactly when it is all white. */
  lemma TrimEmptyIffWhite(s: string)
    ensures Trim(s) == "" <==> AllWhite(s)
  {
    LeftKeeps(s);
    RightKeeps(TrimLeft(s));
  }

  lemma {:induction false} LeftKeeps(s: string)
    ensures AllWhite(TrimLeft(s)) <==> AllWhite(s)
  {
    if s != "" && White(s[0]) {
      LeftKeeps(s[1..]);
      assert s == [s[0]] + s[1..];
    }
  }

  lemma {:induction false} RightKeeps(s: string)
    ensures TrimRight(s) == "" <==> AllWhite(s)
  {
    if s != "" && White(s[|s| - 1]) {
      RightKeeps(s[..|s| - 1]);
      assert s == s[..|s| - 1] + [s[|s| - 1]];
    }
  }

  lemma ForwardedHostIsRead(before: string, host: string, after: string, others: string, realIP: string, remoteAddr: string)
    requires AllWhite(before) && AllWhite(after) && host != "" && !White(host[0]) && !White(host[|host| - 1]) && ',' !in host
    ensures ExtractClientIP(before + host + after, realIP, remoteAddr) == host
    ensures ExtractClientIP(before + host + after + "," + others, realIP, remoteAddr) == host
  {
    var first := before + host + after;
    SplitCons(first, others, ',');
    TrimPads(before, host, after);
  }

  /**
   * A request that was forwarded for a host, whatever padding and further hops the header has
   * and whichever peer delivered it, makes a session that admits connections from that host and
   * from no other.
   */
  lemma ForwardedHostBinds(before: string, host: string, after: string, others: string, realIP: string, remoteAddr: string,
                           peer: string, port: string)
    requires AllWhite(before) && AllWhite(after) && host != "" && !White(host[0]) && !White(host[|host| - 1]) && ',' !in host
    requires peer != "" && ':' !in port && '[' !in peer && ']' !in peer
    ensures Admits(ExtractClientIP(before + host + after, realIP, remoteAddr), JoinHostPort(peer, port)) <==> peer == host
    ensures Admits(ExtractClientIP(before + host + after + "," + others, realIP, remoteAddr), JoinHostPort(peer, port)) <==> peer == host
  {
    ForwardedHostIsRead(before, host, after, others, realIP, remoteAddr);
    HostPortReadsAsHost(peer, port);
  }

  /** When only the X-Real-IP header is there, it admits connections from the host that names and from no other. */
  lemma RealIPBinds(realIP: string, remoteAddr: string, peer: string, port: string)
    requires realIP != "" && peer != "" && ':' !in port && '[' !in peer && ']' !in peer
    ensures Admits(ExtractClientIP("", realIP, remoteAddr), JoinHostPort(peer, port)) <==> peer == realIP
  {
    HostPortReadsAsHost(peer, port);
  }

  /** Without forwarding headers it admits connections from the host that sent the request, and from no other. */
  lemma PeerHostBinds(host: string, requestPort: string, peer: string, port: string)
    requires host != "" && peer != "" && ':' !in requestPort && ':' !in port
    requires '[' !in host && ']' !in host && '[' !in peer && ']' !in peer
    ensures Admits(ExtractClientIP("", "", JoinHostPort(host, requestPort)), JoinHostPort(peer, port)) <==> peer == host
  {
    HostPortReadsAsHost(host, requestPort);
    HostPortReadsAsHost(peer, port);
  }

  /** The session is bound to no address exactly when the part of the request that decides is blank. */
  lemma UnboundIffBlank(forwardedFor: string, realIP: string, remoteAddr: string)
    ensures ExtractClientIP(forwardedFor, realIP, remoteAddr) == "" <==>
            if forwardedFor != "" then AllWhite(Split(forwardedFor, ',')[0]) else realIP == "" && PeerIP(remoteAddr) == ""
  {
    TrimEmptyIffWhite(Split(forwardedFor, ',')[0]);
  }
}
