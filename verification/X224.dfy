/**
 * The two readers of the first packet (proxy/internal/session/gatekeeper.go): TPKT framing
 * as in section 6 of RFC 1006, then the X.224 Connection Request of MS-RDPBCGR 2.2.1.1.
 *
 * A connection is the bytes that arrive before it ends or times out.
 */
module X224 {
  import opened Wrappers
  import opened Cookies

  /** A Go byte; a Go string of bytes is a string of such characters. */
  type Byte = c: char | c as int < 256 witness '\0'
  type Bytes = seq<Byte>

  const TPKT_VERSION := 3
  const TPKT_HEADER_SIZE := 4
  const TPKT_MIN_LENGTH := 11
  const TPKT_MAX_LENGTH := 65535
  const X224_HEADER_SIZE := 7
  const X224_TYPE_CR := 0xE0

  datatype ReadError =
    | HeaderCut
    | InvalidTPKT
    | PacketTooShort
    | BodyCut
    | InvalidX224
    | BadCookie(e: CookieError)

  datatype Packet = Packet(bytes: Bytes, cookie: Cookie)
  datatype LenientPacket = LenientPacket(bytes: Bytes, cookie: Option<Cookie>)

  /** binary.BigEndian.Uint16 */
  function BigEndian16(hi: Byte, lo: Byte): (n: nat)
    ensures n <= 65535
  {
    hi as int * 256 + lo as int
  }

  /** b & 0xF0 */
  function HighNibble(b: Byte): int {
    b as int / 16 * 16
  }

  // ---- What the two readers answer ----

  /** The length field of a stream that has one. */
  function FrameLength(input: Bytes): nat
    requires |input| >= TPKT_HEADER_SIZE
  {
    BigEndian16(input[2], input[3])
  }

  predicate WellFramed(input: Bytes) {
    && |input| >= TPKT_HEADER_SIZE && input[0] as int == TPKT_VERSION
    && TPKT_MIN_LENGTH <= FrameLength(input) <= |input|
  }

  /** The variable part of the connection request at the head of the stream. */
  function VariableData(input: Bytes): Bytes
    requires WellFramed(input)
  {
    input[TPKT_HEADER_SIZE + X224_HEADER_SIZE..FrameLength(input)]
  }

  /** readAndParseX224: insists on a connection request with a readable cookie. */
  function StrictAnswer(input: Bytes): Result<Packet, ReadError> {
    if |input| < TPKT_HEADER_SIZE then Err(HeaderCut)
    else if input[0] as int != TPKT_VERSION then Err(InvalidTPKT)
    else if FrameLength(input) < TPKT_MIN_LENGTH then Err(PacketTooShort)
    else if |input| < FrameLength(input) then Err(BodyCut)
    else if HighNibble(input[5]) != X224_TYPE_CR then Err(InvalidX224)
    else
      match ParseCookie(VariableData(input))
      case Ok(c) => Ok(Packet(input[..FrameLength(input)], c))
      case Err(e) => Err(BadCookie(e))
  }

  /** readX224Packet: takes any well-framed packet, and the cookie if there is a readable one. */
  function LenientAnswer(input: Bytes): Result<LenientPacket, ReadError> {
    if |input| < TPKT_HEADER_SIZE then Err(HeaderCut)
    else if input[0] as int != TPKT_VERSION || FrameLength(input) < TPKT_MIN_LENGTH then Err(InvalidTPKT)
    else if |input| < FrameLength(input) then Err(BodyCut)
    else
      var cookie := match ParseCookie(VariableData(input)) case Ok(c) => Some(c) case Err(_) => None;
      Ok(LenientPacket(input[..FrameLength(input)], cookie))
  }

  /**
   * The strict reader accepts exactly what the lenient one accepts with a cookie and with the
   * type nibble of a connection request, and then both return the same packet and cookie.
   */
  lemma ReadersAgree(input: Bytes, p: Packet)
    ensures StrictAnswer(input) == Ok(p) <==>
            LenientAnswer(input) == Ok(LenientPacket(p.bytes, Some(p.cookie))) && SaysRequest(input[5])
  {
    NibbleSaysRequest();
  }

  /** The type byte of a connection request: 0xE0 to 0xEF. */
  predicate SaysRequest(b: Byte) {
    0xE0 <= b as int < 0xF0
  }

  lemma NibbleSaysRequest()
    ensures forall b: Byte :: HighNibble(b) == X224_TYPE_CR <==> SaysRequest(b)
  {
  }

  /**
   * The readers refuse the same streams for their framing, for reasons that can be told from
   * the number of bytes that came, the first byte and the length field.
   */
  lemma RefusalsMean(input: Bytes)
    ensures StrictAnswer(input) == Err(HeaderCut) <==> |input| < 4
    ensures LenientAnswer(input) == Err(HeaderCut) <==> |input| < 4
    ensures |input| >= 4 ==>
              var version, length := input[0] as int, 256 * input[2] as int + input[3] as int;
              && (StrictAnswer(input) == Err(InvalidTPKT) <==> version != 3)
              && (StrictAnswer(input) == Err(PacketTooShort) <==> version == 3 && length < 11)
              && (LenientAnswer(input) == Err(InvalidTPKT) <==> version != 3 || length < 11)
              && (StrictAnswer(input) == Err(BodyCut) <==> version == 3 && 11 <= length && |input| < length)
              && (LenientAnswer(input) == Err(BodyCut) <==> version == 3 && 11 <= length && |input| < length)
              && (StrictAnswer(input) == Err(InvalidX224) <==> version == 3 && 11 <= length <= |input| && !SaysRequest(input[5]))
  {
    NibbleSaysRequest();
  }

  /** Of a well-framed packet only the bytes from the twelfth on decide about the cookie. */
  lemma CookieIsFrom(input: Bytes, length: nat)
    requires WellFramed(input) && length == 256 * input[2] as int + input[3] as int
    ensures LenientAnswer(input).Ok?
    ensures LenientAnswer(input).value.cookie == match ParseCookie(input[11..length]) case Ok(c) => Some(c) case Err(_) => None
  {
    assert VariableData(input) == input[11..length];
  }

  lemma BadCookieIsFrom(input: Bytes, length: nat, e: CookieError)
    requires WellFramed(input) && length == 256 * input[2] as int + input[3] as int
    ensures StrictAnswer(input) == Err(BadCookie(e)) <==> SaysRequest(input[5]) && ParseCookie(input[11..length]) == Err(e)
  {
    assert VariableData(input) == input[11..length];
    NibbleSaysRequest();
  }

  // ---- From the .rdp file to the gatekeeper ----

  /** A TPKT packet around an X.224 header of seven bytes and the variable data. */
  function Frame(header: Bytes, data: Bytes): Bytes
    requires |header| == X224_HEADER_SIZE && TPKT_HEADER_SIZE + X224_HEADER_SIZE + |data| <= TPKT_MAX_LENGTH
  {
    var n := TPKT_HEADER_SIZE + X224_HEADER_SIZE + |data|;
    [3 as char, 0 as char, (n / 256) as char, (n % 256) as char] + header + data
  }

  lemma FrameReads(header: Bytes, data: Bytes, later: Bytes)
    requires |header| == X224_HEADER_SIZE && TPKT_HEADER_SIZE + X224_HEADER_SIZE + |data| <= TPKT_MAX_LENGTH
    ensures var input := Frame(header, data) + later;
            && WellFramed(input) && input[5] == header[1]
            && input[..FrameLength(input)] == Frame(header, data) && VariableData(input) == data
  {
    var input := Frame(header, data) + later;
    var n := TPKT_HEADER_SIZE + X224_HEADER_SIZE + |data|;
    assert FrameLength(input) == n;
    assert input[..n] == Frame(header, data);
    assert VariableData(input) == data;
  }

  /**
   * A client that sends the printed loadbalanceinfo, with whatever it appends to it and sends
   * after it, is read by the connection handler as exactly the fields the file was made for, if
   * and only if they are printable. What the header says does not matter to that reader.
   */
  lemma GatekeeperReadsWhatTheFilePrints(header: Bytes, data: Bytes, later: Bytes, u: string, t: string, k: string, rest: string)
    requires |header| == X224_HEADER_SIZE && TPKT_HEADER_SIZE + X224_HEADER_SIZE + |data| <= TPKT_MAX_LENGTH
    requires data == LoadBalanceInfo(u, t, k) + rest
    ensures var r := LenientAnswer(Frame(header, data) + later);
            r.Ok? && r.value.bytes == Frame(header, data) &&
            (r.value.cookie.Some? && r.value.cookie.value.userID == u && r.value.cookie.value.targetID == t && r.value.cookie.value.token == k
             <==> Printable(u, t, k))
  {
    FrameReads(header, data, later);
    CookieRoundTrip(u, t, k, rest);
  }

  /** The strict reader reads the same, provided the header is that of a connection request. */
  lemma StrictReaderReadsIt(header: Bytes, data: Bytes, later: Bytes, u: string, t: string, k: string, rest: string)
    requires |header| == X224_HEADER_SIZE && TPKT_HEADER_SIZE + X224_HEADER_SIZE + |data| <= TPKT_MAX_LENGTH
    requires data == LoadBalanceInfo(u, t, k) + rest
    ensures var r := StrictAnswer(Frame(header, data) + later);
            (r.Ok? && r.value.bytes == Frame(header, data)
             && r.value.cookie.userID == u && r.value.cookie.targetID == t && r.value.cookie.token == k)
            <==> Printable(u, t, k) && SaysRequest(header[1])
  {
    FrameReads(header, data, later);
    CookieRoundTrip(u, t, k, rest);
    NibbleSaysRequest();
  }

  class Conn {
    var input: Bytes

    constructor (input: Bytes)
      ensures this.input == input
    {
      this.input := input;
    }

    /** io.ReadFull: fills the buffer or fails when the stream ends first. */
    method ReadFull(buf: array<Byte>) returns (ok: bool)
      modifies this, buf
      ensures ok <==> buf.Length <= |old(input)|
      ensures ok ==> buf[..] == old(input)[..buf.Length] && input == old(input)[buf.Length..]
    {
      var n := if buf.Length <= |input| then buf.Length else |input|;
      forall i | 0 <= i < n {
        buf[i] := input[i];
      }
      ok := n == buf.Length;
      input := input[n..];
    }
  }

  /** copy(dst[at:], src) */
  method Copy(dst: array<Byte>, at: nat, src: array<Byte>)
    requires at + src.Length <= dst.Length && dst != src
    modifies dst
    ensures dst[..] == old(dst[..at]) + src[..] + old(dst[at + src.Length..])
  {
    forall i | 0 <= i < src.Length {
      dst[at + i] := src[i];
    }
  }

  /** The packet as it will be forwarded: header and body in one buffer. */
  method Assemble(tpkt: array<Byte>, body: array<Byte>) returns (full: array<Byte>)
    ensures fresh(full) && full[..] == tpkt[..] + body[..]
  {
    full := new Byte[tpkt.Length + body.Length];
    Copy(full, 0, tpkt);
    Copy(full, tpkt.Length, body);
  }

  method ReadAndParse(conn: Conn) returns (r: Result<Packet, ReadError>)
    modifies conn
    ensures r == StrictAnswer(old(conn.input))
    ensures r.Ok? ==> conn.input == old(conn.input)[FrameLength(old(conn.input))..]
  {
    ghost var all := conn.input;
    var tpkt := new Byte[TPKT_HEADER_SIZE];
    var ok := conn.ReadFull(tpkt);
    if !ok {
      return Err(HeaderCut);
    }
    assert forall i | 0 <= i < 4 :: tpkt[i] == tpkt[..][i] == all[i];
    if tpkt[0] as int != TPKT_VERSION {
      return Err(InvalidTPKT);
    }
    var length := BigEndian16(tpkt[2], tpkt[3]);
    if length < TPKT_MIN_LENGTH {
      return Err(PacketTooShort);
    }
    if length > TPKT_MAX_LENGTH {
      return Err(InvalidTPKT);
    }
    var body := new Byte[length - TPKT_HEADER_SIZE];
    ok := conn.ReadFull(body);
    if !ok {
      return Err(BodyCut);
    }
    assert all[4..][..length - 4] == all[4..length];
    assert all[..length] == tpkt[..] + body[..];
    assert body[1] == body[..][1] == all[5];
    if HighNibble(body[1]) != X224_TYPE_CR {
      return Err(InvalidX224);
    }
    var full := Assemble(tpkt, body);
    assert body[X224_HEADER_SIZE..] == VariableData(all);
    var cookie := ParseCookie(body[X224_HEADER_SIZE..]);
    if cookie.Err? {
      return Err(BadCookie(cookie.error));
    }
    return Ok(Packet(full[..], cookie.value));
  }

  method ReadPacket(conn: Conn) returns (r: Result<LenientPacket, ReadError>)
    modifies conn
    ensures r == LenientAnswer(old(conn.input))
    ensures r.Ok? ==> conn.input == old(conn.input)[FrameLength(old(conn.input))..]
  {
    ghost var all := conn.input;
    var tpkt := new Byte[TPKT_HEADER_SIZE];
    var ok := conn.ReadFull(tpkt);
    if !ok {
      return Err(HeaderCut);
    }
    assert forall i | 0 <= i < 4 :: tpkt[i] == tpkt[..][i] == all[i];
    if tpkt[0] as int != TPKT_VERSION {
      return Err(InvalidTPKT);
    }
    var length := BigEndian16(tpkt[2], tpkt[3]);
    if length < TPKT_MIN_LENGTH || length > TPKT_MAX_LENGTH {
      return Err(InvalidTPKT);
    }
    var body := new Byte[length - TPKT_HEADER_SIZE];
    ok := conn.ReadFull(body);
    if !ok {
      return Err(BodyCut);
    }
    assert all[4..][..length - 4] == all[4..length];
    assert all[..length] == tpkt[..] + body[..];
    var full := Assemble(tpkt, body);
    var cookie := None;
    assert body[X224_HEADER_SIZE..] == VariableData(all);
    if body.Length > X224_HEADER_SIZE {
      var parsed := ParseCookie(body[X224_HEADER_SIZE..]);
      if parsed.Ok? {
        cookie := Some(parsed.value);
      }
    } else {
      assert VariableData(all) == [];
    }
    return Ok(LenientPacket(full[..], cookie));
  }
}
