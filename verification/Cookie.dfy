/**
 * The routing cookie: rdp_file.go prints it into the .rdp file, and gatekeeper.go reads it
 * back out of the first packet of a connection (proxy/internal/session).
 */
module Cookies {
  import opened Wrappers
  import opened Text

  const PREFIX := "Cookie: mstshash="
  const CRLF := "\r\n"

  datatype CookieError = NoCookie | NoTerminator | EmptyValue | WrongParts(count: nat) | EmptyField

  datatype Cookie = Cookie(userID: string, targetID: string, token: string, raw: string)

  // ---- Printing ----

  /** An '@' in the user id would make RDP clients split the name. */
  function Encode(userID: string): string {
    ReplaceAll(userID, "@", "%40")
  }

  function Decode(s: string): string {
    ReplaceAll(s, "%40", "@")
  }

  function Compound(userID: string, targetID: string, token: string): string {
    Encode(userID) + ['#'] + targetID + ['#'] + token
  }

  function LoadBalanceInfo(userID: string, targetID: string, token: string): string {
    PREFIX + Compound(userID, targetID, token) + CRLF
  }

  // ---- Reading ----

  function ParseCookie(data: string): Result<Cookie, CookieError> {
    match Index(data, PREFIX)
    case None => Err(NoCookie)
    case Some(idx) =>
      var after := data[idx + |PREFIX|..];
      match Index(after, CRLF)
      case None => Err(NoTerminator)
      case Some(end) =>
        var value := after[..end];
        if value == "" then Err(EmptyValue) else ParseValue(value)
  }

  function ParseValue(value: string): Result<Cookie, CookieError> {
    var parts := Split(value, '#');
    if |parts| != 3 then Err(WrongParts(|parts|))
    else if Decode(parts[0]) == "" || parts[1] == "" || parts[2] == "" then Err(EmptyField)
    else Ok(Cookie(Decode(parts[0]), parts[1], parts[2], value))
  }

  // ---- The substitution of '@' ----

  /** The reason for it: no '@' is left. */
  lemma {:induction false} EncodeHidesAt(u: string)
    ensures '@' !in Encode(u)
  {
    if u != [] {
      EncodeHidesAt(u[1..]);
      if u[0] != '@' {
        assert !("@" <= u);
      }
    }
  }

  lemma EncodedStart(w: string)
    requires |Encode(w)| >= 2 && Encode(w)[0] == '4' && Encode(w)[1] == '0'
    ensures |w| >= 2 && w[0] == '4' && w[1] == '0'
  {
    assert !("@" <= w);
    assert Encode(w) == [w[0]] + Encode(w[1..]);
    assert w[1..] != [];
    assert !("@" <= w[1..]);
  }

  lemma ReplaceHit(s: string, old': string, new': string, rest: string)
    requires old' != [] && s == old' + rest
    ensures ReplaceAll(s, old', new') == new' + ReplaceAll(rest, old', new')
  {
    assert old' <= s && s[|old'|..] == rest;
  }

  lemma EncodeMisses(u: string)
    requires |u| >= 3 && u[0] == '%' && u[1] == '4' && u[2] == '0'
    ensures Encode(u) == "%40" + Encode(u[3..])
  {
    assert u[1..][1..] == u[2..] && u[2..][1..] == u[3..];
    assert !("@" <= u) && !("@" <= u[1..]) && !("@" <= u[2..]);
    assert Encode(u) == ['%'] + Encode(u[1..]);
    assert Encode(u[1..]) == ['4'] + Encode(u[2..]);
    assert Encode(u[2..]) == ['0'] + Encode(u[3..]);
  }

  /** Decoding what was encoded differs from decoding the original in nothing. */
  lemma {:induction false} DecodeEncode(u: string)
    ensures Decode(Encode(u)) == Decode(u)
    decreases |u|
  {
    if u == [] {
    } else if u[0] == '@' {
      var rest := u[1..];
      DecodeEncode(rest);
      assert u == "@" + rest;
      ReplaceHit(u, "@", "%40", rest);
      ReplaceHit(Encode(u), "%40", "@", Encode(rest));
      assert !("%40" <= u);
      assert Decode(u) == ['@'] + Decode(rest);
    } else if "%40" <= u {
      var rest := u[3..];
      DecodeEncode(rest);
      assert u == "%40" + rest;
      EncodeMisses(u);
      ReplaceHit(u, "%40", "@", rest);
      ReplaceHit(Encode(u), "%40", "@", Encode(rest));
    } else {
      DecodeEncode(u[1..]);
      var e := Encode(u);
      assert !("@" <= u);
      assert e == [u[0]] + Encode(u[1..]) && e[1..] == Encode(u[1..]);
      assert !("%40" <= e) by {
        if "%40" <= e {
          assert e[1] == '4' && e[2] == '0';
          EncodedStart(u[1..]);
        }
      }
    }
  }

  lemma {:induction false} ContainsTail(s: string, sub: string)
    requires s != [] && sub != []
    ensures Contains(s, sub) <==> sub <= s || Contains(s[1..], sub)
  {
  }

  /** Decode leaves a string alone exactly when there is no "%40" in it; otherwise it shortens it. */
  lemma {:induction false} DecodeFixes(u: string)
    ensures if Contains(u, "%40") then |Decode(u)| < |u| else Decode(u) == u
    ensures u != [] ==> Decode(u) != []
    decreases |u|
  {
    if u != [] {
      if "%40" <= u {
        DecodeFixes(u[3..]);
      } else {
        DecodeFixes(u[1..]);
        ContainsTail(u, "%40");
      }
    }
  }

  /** The user id survives the file and the wire exactly when it has no "%40" of its own. */
  lemma UserIDSurvives(u: string)
    ensures Decode(Encode(u)) == u <==> !Contains(u, "%40")
  {
    DecodeEncode(u);
    DecodeFixes(u);
  }

  lemma {:induction false} SubstitutionKeepsHash(u: string)
    ensures '#' in Encode(u) <==> '#' in u
    ensures '#' in Decode(u) <==> '#' in u
    ensures Encode(u) == [] <==> u == []
    decreases |u|
  {
    if u != [] {
      SubstitutionKeepsHash(u[1..]);
      if "%40" <= u {
        SubstitutionKeepsHash(u[3..]);
        assert u == ['%', '4', '0'] + u[3..];
      }
      assert '#' in u <==> u[0] == '#' || '#' in u[1..];
    }
  }

  // ---- CRLF inside the compound name ----

  /** No CRLF can straddle a boundary after which there is no line feed. */
  lemma {:induction false} CrlfConcat(a: string, b: string)
    requires b == [] || b[0] != '\n'
    ensures Contains(a + b, CRLF) <==> Contains(a, CRLF) || Contains(b, CRLF)
  {
    if a == [] {
      assert a + b == b;
    } else {
      CrlfConcat(a[1..], b);
      assert (a + b)[1..] == a[1..] + b;
      ContainsTail(a + b, CRLF);
      ContainsTail(a, CRLF);
      assert CRLF <= a + b <==> CRLF <= a;
    }
  }

  lemma {:induction false} CrlfBeyond(p: string, s: string)
    requires '\r' !in p
    ensures Contains(p + s, CRLF) <==> Contains(s, CRLF)
  {
    if p == [] {
      assert p + s == s;
    } else {
      CrlfBeyond(p[1..], s);
      assert (p + s)[1..] == p[1..] + s && (p + s)[0] == p[0] && p[0] in p;
      ContainsTail(p + s, CRLF);
    }
  }

  lemma {:induction false} CrlfEncode(u: string)
    ensures Contains(Encode(u), CRLF) <==> Contains(u, CRLF)
    ensures u != [] ==> Encode(u) != [] && (Encode(u)[0] == '\n' <==> u[0] == '\n')
  {
    if u != [] {
      CrlfEncode(u[1..]);
      ContainsTail(u, CRLF);
      var e := Encode(u[1..]);
      if "@" <= u {
        assert Encode(u) == "%40" + e;
        CrlfBeyond("%40", e);
      } else {
        assert Encode(u) == [u[0]] + e && Encode(u)[1..] == e;
        ContainsTail(Encode(u), CRLF);
      }
    }
  }

  // ---- The round trip ----

  /** What a caller can check of the three fields before the file is made. */
  predicate Printable(userID: string, targetID: string, token: string) {
    && userID != "" && targetID != "" && token != ""
    && '#' !in userID && '#' !in targetID && '#' !in token
    && !Contains(userID, CRLF) && !Contains(targetID, CRLF) && !Contains(token, CRLF)
    && !Contains(userID, "%40")
  }

  lemma CompoundCrlf(u: string, t: string, k: string)
    ensures Contains(Compound(u, t, k), CRLF) <==> Contains(u, CRLF) || Contains(t, CRLF) || Contains(k, CRLF)
  {
    CrlfEncode(u);
    assert Compound(u, t, k) == Encode(u) + (['#'] + (t + (['#'] + k)));
    CrlfConcat(Encode(u), ['#'] + (t + (['#'] + k)));
    CrlfBeyond(['#'], t + (['#'] + k));
    CrlfConcat(t, ['#'] + k);
    CrlfBeyond(['#'], k);
  }

  lemma PrefixFirst(c: string, rest: string)
    ensures Index(PREFIX + c + CRLF + rest, PREFIX) == Some(0)
    ensures (PREFIX + c + CRLF + rest)[|PREFIX|..] == c + CRLF + rest
  {
    var data := PREFIX + c + CRLF + rest;
    assert PREFIX <= data[0..];
    FirstOccurrence(data, PREFIX, 0);
  }

  lemma ValueEnds(c: string, rest: string) returns (end: nat)
    ensures Index(c + CRLF + rest, CRLF) == Some(end) && end <= |c| && (c + CRLF + rest)[..end] == c[..end]
  {
    assert CRLF <= (c + CRLF + rest)[|c|..];
    end := Index(c + CRLF + rest, CRLF).value;
  }

  /** The reader cuts the value at the first CRLF, which is the printed one unless a field holds an earlier one. */
  lemma ParsePrinted(u: string, t: string, k: string, rest: string) returns (end: nat)
    ensures end <= |Compound(u, t, k)|
    ensures end == |Compound(u, t, k)| <==> !Contains(Compound(u, t, k), CRLF)
    ensures var value := Compound(u, t, k)[..end];
            ParseCookie(LoadBalanceInfo(u, t, k) + rest) == if value == "" then Err(EmptyValue) else ParseValue(value)
  {
    var c := Compound(u, t, k);
    PrefixFirst(c, rest);
    end := ValueEnds(c, rest);
    FirstCrlf(c, rest, end);
  }

  lemma FirstCrlf(c: string, rest: string, end: nat)
    requires Index(c + CRLF + rest, CRLF) == Some(end) && end <= |c|
    ensures end == |c| <==> !Contains(c, CRLF)
  {
    var after := c + CRLF + rest;
    forall i | 0 <= i <= |c| && CRLF <= c[i..] ensures i < |c| && CRLF <= after[i..] {
      assert after[i..][..2] == c[i..][..2];
    }
    if end < |c| {
      assert after[end] == '\r' && after[end + 1] == '\n';
      assert CRLF <= c[end..];
    }
  }

  /**
   * What the .rdp file prints, followed by any bytes, reads back as the same three fields
   * exactly when the fields are printable.
   */
  lemma CookieRoundTrip(u: string, t: string, k: string, rest: string)
    ensures var r := ParseCookie(LoadBalanceInfo(u, t, k) + rest);
            (r.Ok? && r.value.userID == u && r.value.targetID == t && r.value.token == k) <==> Printable(u, t, k)
  {
    var r := ParseCookie(LoadBalanceInfo(u, t, k) + rest);
    var c := Compound(u, t, k);
    var end := ParsePrinted(u, t, k, rest);
    CompoundCrlf(u, t, k);
    UserIDSurvives(u);
    SubstitutionKeepsHash(u);
    if Printable(u, t, k) {
      assert c[..end] == c;
      SplitThree(Encode(u), t, k, '#');
    } else if r.Ok? && r.value.userID == u && r.value.targetID == t && r.value.token == k {
      ReadBackIsWhole(u, t, k, c[..end]);
      assert false;
    }
  }

  // ---- What the reader accepts ----

  /** The first cookie in the data, its value ended by the first CRLF behind it and made of three fields. */
  ghost predicate Holds(data: string, c: Cookie, before: string, field: string, rest: string) {
    && data == before + PREFIX + (c.raw + CRLF + rest) && Index(data, PREFIX) == Some(|before|)
    && !Contains(c.raw, CRLF)
    && c.raw == field + ['#'] + c.targetID + ['#'] + c.token
    && '#' !in field && '#' !in c.targetID && '#' !in c.token
    && c.userID == Decode(field) && c.userID != "" && c.targetID != "" && c.token != ""
  }

  /** The reader returns a cookie exactly when the data holds it. */
  lemma ReadsIffHolds(data: string, c: Cookie)
    ensures ParseCookie(data) == Ok(c) <==> exists before, field, rest :: Holds(data, c, before, field, rest)
  {
    if ParseCookie(data) == Ok(c) {
      var before, field, rest := WhatIsRead(data, c);
    }
    forall before, field, rest | Holds(data, c, before, field, rest) ensures ParseCookie(data) == Ok(c) {
      HeldIsRead(data, c, before, field, rest);
    }
  }

  /** What follows the first prefix. */
  lemma CutAtPrefix(data: string, before: string, after: string)
    requires data == before + PREFIX + after && Index(data, PREFIX) == Some(|before|)
    ensures data[|before| + |PREFIX|..] == after
  {
  }

  lemma CutAtCrlf(raw: string, rest: string)
    requires !Contains(raw, CRLF)
    ensures Index(raw + CRLF + rest, CRLF) == Some(|raw|) && (raw + CRLF + rest)[..|raw|] == raw
  {
    var end := ValueEnds(raw, rest);
    FirstCrlf(raw, rest, end);
  }

  lemma HeldIsRead(data: string, c: Cookie, before: string, field: string, rest: string)
    requires Holds(data, c, before, field, rest)
    ensures ParseCookie(data) == Ok(c)
  {
    CutAtPrefix(data, before, c.raw + CRLF + rest);
    CutAtCrlf(c.raw, rest);
    SplitThree(field, c.targetID, c.token, '#');
  }

  lemma WhatIsRead(data: string, c: Cookie) returns (before: string, field: string, rest: string)
    requires ParseCookie(data) == Ok(c)
    ensures Holds(data, c, before, field, rest)
  {
    var idx := Index(data, PREFIX).value;
    var after := data[idx + |PREFIX|..];
    var end := Index(after, CRLF).value;
    before, rest := data[..idx], after[end + 2..];
    assert data == before + PREFIX + after;
    NoEarlierCrlf(after, end);
    field := Split(after[..end], '#')[0];
    ValueIsThreeFields(after[..end], c);
  }

  lemma NoEarlierCrlf(after: string, end: nat)
    requires Index(after, CRLF) == Some(end)
    ensures end + 2 <= |after| && after == after[..end] + CRLF + after[end + 2..] && !Contains(after[..end], CRLF)
  {
    CutAtOccurrence(after, CRLF, end);
    FirstCrlf(after[..end], after[end + 2..], end);
  }

  lemma ValueIsThreeFields(value: string, c: Cookie)
    requires ParseValue(value) == Ok(c)
    ensures var field := Split(value, '#')[0];
            && value == field + ['#'] + c.targetID + ['#'] + c.token
            && '#' !in field && '#' !in c.targetID && '#' !in c.token && c.userID == Decode(field) && c.raw == value
  {
    var parts := Split(value, '#');
    JoinSplit(value, '#');
    assert parts == [parts[0], parts[1], parts[2]];
    JoinThree(parts[0], parts[1], parts[2], '#');
  }

  /** Why the reader refuses: there is no prefix, no CRLF behind the first one, or nothing between. */
  lemma RefusalsMean(data: string, before: string, after: string)
    requires data == before + PREFIX + after && Index(data, PREFIX) == Some(|before|)
    ensures ParseCookie(data) != Err(NoCookie)
    ensures ParseCookie(data) == Err(NoTerminator) <==> !Contains(after, CRLF)
    ensures ParseCookie(data) == Err(EmptyValue) <==> CRLF <= after
  {
    CutAtPrefix(data, before, after);
    StartsAtOnce(after, CRLF);
  }

  lemma NothingToRead(data: string)
    ensures ParseCookie(data) == Err(NoCookie) <==> !Contains(data, PREFIX)
  {
  }

  lemma StartsAtOnce(s: string, sub: string)
    ensures Index(s, sub) == Some(0) <==> sub <= s
    ensures Index(s, sub).Some? ==> (s[..Index(s, sub).value] == "" <==> sub <= s)
  {
  }

  lemma PartsAreCounted(value: string, n: nat)
    ensures ParseValue(value) == Err(WrongParts(n)) <==> n == multiset(value)['#'] + 1 && n != 3
    ensures ParseValue(value) == Err(EmptyField) <==> multiset(value)['#'] == 2 && "" in Split(value, '#')
  {
    SplitCounts(value, '#');
    SubstitutionKeepsHash(Split(value, '#')[0]);
    DecodeFixes(Split(value, '#')[0]);
  }

  /** If a prefix of the compound name reads as the three fields, it is all of it. */
  lemma ReadBackIsWhole(u: string, t: string, k: string, value: string)
    requires value <= Compound(u, t, k)
    requires var r := ParseValue(value); r.Ok? && r.value.userID == u && r.value.targetID == t && r.value.token == k
    ensures value == Compound(u, t, k) && '#' !in u && '#' !in t && '#' !in k
    ensures Decode(Encode(u)) == u && u != "" && t != "" && k != ""
  {
    var parts := Split(value, '#');
    var p := parts[0];
    SubstitutionKeepsHash(p);
    SubstitutionKeepsHash(u);
    JoinSplit(value, '#');
    assert parts == [p, t, k] && parts[1..] == [t, k] && [t, k][1..] == [k];
    assert Join([t, k], '#') == t + ['#'] + Join([k], '#');
    assert Join(parts, '#') == p + ['#'] + Join([t, k], '#');
    assert value == p + ['#'] + (t + ['#'] + k);
    assert Compound(u, t, k) == Encode(u) + ['#'] + (t + ['#'] + k);
    SameHead(p, t + ['#'] + k, Encode(u), t + ['#'] + k, '#');
  }
}
