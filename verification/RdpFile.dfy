/** The .rdp file handed to the user (proxy/internal/session/rdp_file.go). */
module RdpFile {
  import opened Cookies
  import opened Numbers

  datatype Params = Params(brokerHost: string, port: nat, userID: string, targetID: string, token: string, domain: string)

  /** No prompt, no check of the broker's certificate, and no network level authentication towards the broker. */
  function SecuritySettings(): seq<string> {
    ["prompt for credentials:i:0", "authentication level:i:0", "negotiate security layer:i:1", "enablecredsspsupport:i:0"]
  }

  function OtherSettings(): seq<string> {
    ["autoreconnection enabled:i:0", "screen mode id:i:2", "desktopwidth:i:1920",
     "desktopheight:i:1080", "session bpp:i:32", "smart sizing:i:1", "compression:i:1", "displayconnectionbar:i:0",
     "allow font smoothing:i:1", "autoreconnection enabled:i:0", "redirectclipboard:i:1", "redirectprinters:i:0",
     "redirectcomports:i:0", "redirectsmartcards:i:0", "redirectposdevices:i:0", "redirectdrives:i:0",
     "audiomode:i:0", "audiocapturemode:i:0"]
  }

  function JoinLines(lines: seq<string>): string
    requires |lines| >= 1
  {
    if |lines| == 1 then lines[0] else lines[0] + CRLF + JoinLines(lines[1..])
  }

  function Lines(p: Params): seq<string> {
    ["full address:s:" + p.brokerHost + ":" + Digits(p.port),
     "username:s:" + Compound(p.userID, p.targetID, p.token),
     "domain:s:" + p.domain,
     "loadbalanceinfo:s:" + LoadBalanceInfo(p.userID, p.targetID, p.token)] + SecuritySettings() + OtherSettings()
  }

  function GenerateRDPFile(p: Params): string {
    JoinLines(Lines(p)) + CRLF
  }

  lemma {:induction false} JoinAt(lines: seq<string>, k: nat) returns (head: string, tail: string)
    requires k < |lines| - 1
    ensures JoinLines(lines) == head + lines[k] + CRLF + tail
  {
    if k == 0 {
      head, tail := "", JoinLines(lines[1..]);
    } else {
      var h, t := JoinAt(lines[1..], k - 1);
      head, tail := lines[0] + CRLF + h, t;
      assert lines[1..][k - 1] == lines[k];
      assert JoinLines(lines) == lines[0] + CRLF + (h + lines[k] + CRLF + t);
    }
  }

  /** A setting that is not the last one stands whole in the joined text. */
  lemma SettingAt(lines: seq<string>, k: nat, key: string, value: string) returns (head: string, rest: string)
    requires k < |lines| - 1 && lines[k] == key + value
    ensures JoinLines(lines) + CRLF == head + key + (value + rest)
  {
    var tail;
    head, tail := JoinAt(lines, k);
    rest := CRLF + tail + CRLF;
    assert head + (key + value) + CRLF + tail + CRLF == head + key + (value + (CRLF + tail + CRLF));
  }

  /**
   * The file has a loadbalanceinfo line, and a reader fed from its value onwards recovers
   * user, target and token exactly when they are printable.
   */
  lemma FileCarriesCookie(p: Params) returns (head: string, rest: string)
    ensures GenerateRDPFile(p) == head + "loadbalanceinfo:s:" + (LoadBalanceInfo(p.userID, p.targetID, p.token) + rest)
    ensures var r := ParseCookie(LoadBalanceInfo(p.userID, p.targetID, p.token) + rest);
            (r.Ok? && r.value.userID == p.userID && r.value.targetID == p.targetID && r.value.token == p.token)
            <==> Printable(p.userID, p.targetID, p.token)
    ensures LoadBalanceInfo(p.userID, p.targetID, p.token) == "Cookie: mstshash=" + Compound(p.userID, p.targetID, p.token) + "\r\n"
  {
    head, rest := SettingAt(Lines(p), 3, "loadbalanceinfo:s:", LoadBalanceInfo(p.userID, p.targetID, p.token));
    CookieRoundTrip(p.userID, p.targetID, p.token, rest);
  }

  lemma {:induction false} JoinFrom(lines: seq<string>, k: nat) returns (head: string)
    requires k < |lines|
    ensures JoinLines(lines) == head + JoinLines(lines[k..])
  {
    if k == 0 {
      head := "";
      assert lines[0..] == lines;
    } else {
      var h := JoinFrom(lines[1..], k - 1);
      assert lines[1..][k - 1..] == lines[k..];
      head := lines[0] + CRLF + h;
      assert JoinLines(lines) == lines[0] + CRLF + (h + JoinLines(lines[k..]));
    }
  }

  /** The file begins with the broker's address and port, the compound name and the domain, each on its line. */
  lemma FileBegins(p: Params) returns (rest: string)
    ensures GenerateRDPFile(p) ==
            "full address:s:" + p.brokerHost + ":" + Digits(p.port) + "\r\n" +
            ("username:s:" + Compound(p.userID, p.targetID, p.token) + "\r\n" + ("domain:s:" + p.domain + "\r\n" + rest))
  {
    var l := Lines(p);
    rest := JoinLines(l[3..]) + CRLF;
    assert l[1..][1..] == l[2..] && l[2..][1..] == l[3..];
    assert JoinLines(l) == l[0] + CRLF + JoinLines(l[1..]);
    assert JoinLines(l[1..]) == l[1] + CRLF + JoinLines(l[2..]);
    assert JoinLines(l[2..]) == l[2] + CRLF + JoinLines(l[3..]);
    ThreeLines(l[0], l[1], l[2], JoinLines(l[3..]));
  }

  lemma ThreeLines(a: string, b: string, c: string, more: string)
    ensures (a + CRLF + (b + CRLF + (c + CRLF + more))) + CRLF == a + CRLF + (b + CRLF + (c + CRLF + (more + CRLF)))
  {
  }

  /** Behind the cookie come the security settings, in this order, and then the rest. */
  lemma FileEnds(p: Params) returns (head: string)
    ensures GenerateRDPFile(p) == head +
              (JoinLines(["prompt for credentials:i:0", "authentication level:i:0",
                          "negotiate security layer:i:1", "enablecredsspsupport:i:0"] + OtherSettings()) + CRLF)
  {
    var last := SecuritySettings() + OtherSettings();
    head := JoinFrom(Lines(p), 4);
    assert Lines(p)[4..] == last;
    Reassociate(head, JoinLines(last));
  }

  lemma Reassociate(a: string, b: string)
    ensures a + b + CRLF == a + (b + CRLF)
  {
  }
}
