/**
 * internal/controlplane/plugintoken.go: dotted, signed, base64url-encoded tokens, with the printers and
 * parsers they are made of. Characters stand for bytes.
 */
module PluginTokens {
  import opened Options
  import opened Strings

  /** A Go string: any sequence of bytes. */
  type Bytes = s: string | forall i :: 0 <= i < |s| ==> s[i] as int < 256

  // ---- Unpadded base64url, sections 5 and 3.2 of RFC 4648 -----------------------------------

  type Sextet = v: int | 0 <= v < 64

  function Digit(v: Sextet): char {
    if v < 26 then 'A' + v as char
    else if v < 52 then 'a' + (v - 26) as char
    else if v < 62 then '0' + (v - 52) as char
    else if v == 62 then '-' else '_'
  }

  function Value(c: char): Option<Sextet> {
    if 'A' <= c <= 'Z' then Some(c as int - 'A' as int)
    else if 'a' <= c <= 'z' then Some(c as int - 'a' as int + 26)
    else if '0' <= c <= '9' then Some(c as int - '0' as int + 52)
    else if c == '-' then Some(62)
    else if c == '_' then Some(63)
    else None
  }

  type Byte = c: char | c as int < 256

  // The four sextets of three bytes.

  function FirstSix(a: Byte): Sextet {
    a as int / 4
  }

  function SecondSix(a: Byte, b: Byte): Sextet {
    a as int % 4 * 16 + b as int / 16
  }

  function ThirdSix(b: Byte, c: Byte): Sextet {
    b as int % 16 * 4 + c as int / 64
  }

  function FourthSix(c: Byte): Sextet {
    c as int % 64
  }

  function Encode(s: Bytes): (r: string)
    ensures forall i :: 0 <= i < |r| ==> Value(r[i]).Some?
  {
    if |s| == 0 then []
    else if |s| == 1 then [Digit(FirstSix(s[0])), Digit(SecondSix(s[0], 0 as char))]
    else if |s| == 2 then [Digit(FirstSix(s[0])), Digit(SecondSix(s[0], s[1])), Digit(ThirdSix(s[1], 0 as char))]
    else
      [Digit(FirstSix(s[0])), Digit(SecondSix(s[0], s[1])), Digit(ThirdSix(s[1], s[2])), Digit(FourthSix(s[2]))]
      + Encode(s[3..])
  }

  // The three bytes of four sextets.

  function First(p: Sextet, q: Sextet): Byte {
    (p * 4 + q / 16) as char
  }

  function Second(q: Sextet, r: Sextet): Byte {
    (q % 16 * 16 + r / 4) as char
  }

  function Third(r: Sextet, u: Sextet): Byte {
    (r % 4 * 64 + u) as char
  }

  function DecodeQuads(t: string): Option<Bytes> {
    if t == [] then Some([])
    else if |t| == 1 || Value(t[0]).None? || Value(t[1]).None? then None
    else
      var p, q := Value(t[0]).value, Value(t[1]).value;
      if |t| == 2 then Some([First(p, q)])
      else if Value(t[2]).None? then None
      else
        var r := Value(t[2]).value;
        if |t| == 3 then Some([First(p, q), Second(q, r)])
        else if Value(t[3]).None? then None
        else
          var u := Value(t[3]).value;
          match DecodeQuads(t[4..])
          case None => None
          case Some(rest) => Some([First(p, q), Second(q, r), Third(r, u)] + rest)
  }

  /** Go's decoder skips line breaks, which the encoder never writes. */
  function WithoutBreaks(t: string): string {
    if t == [] then [] else (if t[0] == '\r' || t[0] == '\n' then [] else [t[0]]) + WithoutBreaks(t[1..])
  }

  function Decode(t: string): Option<Bytes> {
    DecodeQuads(WithoutBreaks(t))
  }

  // ---- Decimal int64 -----------------------------------------------------------------------

  const INT64_MIN := -0x8000_0000_0000_0000
  const INT64_MAX := 0x7fff_ffff_ffff_ffff

  function FormatNat(n: nat): (r: string)
    ensures r != [] && forall i :: 0 <= i < |r| ==> '0' <= r[i] <= '9'
  {
    var last := ['0' + (n % 10) as char];
    if n < 10 then last else FormatNat(n / 10) + last
  }

  function FormatInt(n: int): string {
    if n < 0 then "-" + FormatNat(-n) else FormatNat(n)
  }

  function ParseNat(s: string): Option<nat> {
    if s == [] then None
    else if !('0' <= Last(s) <= '9') then None
    else
      var d := Last(s) as int - '0' as int;
      if |s| == 1 then Some(d)
      else match ParseNat(Init(s)) case Some(n) => Some(10 * n + d) case None => None
  }

  function ParseInt64(s: string): Option<int> {
    var signed := s != [] && (s[0] == '-' || s[0] == '+');
    match ParseNat(if signed then s[1..] else s)
    case None => None
    case Some(n) =>
      var v := if signed && s[0] == '-' then -(n as int) else n as int;
      if INT64_MIN <= v <= INT64_MAX then Some(v) else None
  }

  // ---- Tokens ------------------------------------------------------------------------------

  datatype Verdict = Malformed | BadSignature | Expired | Verified(pluginID: string)

  /** The keyed hash, whatever it is: HMAC-SHA256 under the signer's secret. */
  type Mac = Bytes -> Bytes

  function Sign(mac: Mac, payload: Bytes): string {
    Encode(mac(payload))
  }

  function Unix(t: real): int {
    t.Floor
  }

  function Payload(id: Bytes, exp: int): Bytes
    requires INT64_MIN <= exp <= INT64_MAX
  {
    id + "." + FormatInt(exp)
  }

  function Ascii(s: string): (r: Bytes)
    requires forall i :: 0 <= i < |s| ==> Value(s[i]).Some?
    ensures r == s
  {
    assert forall i :: 0 <= i < |s| ==> Value(s[i]).Some?;
    s
  }

  function Issue(mac: Mac, id: Bytes, now: real, ttl: real): string
    requires INT64_MIN <= Unix(now + ttl) <= INT64_MAX
  {
    var payload := Payload(id, Unix(now + ttl));
    Encode(payload + "." + Ascii(Sign(mac, payload)))
  }

  function Verify(mac: Mac, token: string, now: real): Verdict {
    match Decode(token)
    case None => Malformed
    case Some(raw) =>
      var parts := Split(raw, '.');
      if |parts| != 3 then Malformed
      else if parts[2] != Sign(mac, PartsPayload(raw, parts)) then BadSignature
      else
        match ParseInt64(parts[1])
        case None => Expired
        case Some(exp) => if Unix(now) > exp then Expired else Verified(parts[0])
  }

  /** handlers.go's verifyToken: the token opens the ID it was signed for and no other. */
  predicate Opens(mac: Mac, token: string, id: string, now: real) {
    Verify(mac, token, now) == Verified(id)
  }

  function PartsPayload(raw: Bytes, parts: seq<string>): Bytes
    requires parts == Split(raw, '.') && |parts| == 3
  {
    PartsAreBytes(raw, parts);
    parts[0] + "." + parts[1]
  }

  lemma PartsAreBytes(raw: Bytes, parts: seq<string>)
    requires parts == Split(raw, '.') && |parts| == 3
    ensures forall i :: 0 <= i < |parts[0] + "." + parts[1]| ==> (parts[0] + "." + parts[1])[i] as int < 256
  {
    JoinThree(raw, parts);
    assert forall i :: 0 <= i < |parts[0] + "." + parts[1]| ==> (parts[0] + "." + parts[1])[i] == raw[i];
  }

  lemma JoinThree(raw: string, parts: seq<string>)
    requires parts == Split(raw, '.') && |parts| == 3
    ensures raw == parts[0] + "." + parts[1] + "." + parts[2]
  {
    JoinSplit(raw, '.');
    var rest := parts[1..];
    assert rest[1..] == [parts[2]];
    assert Join(rest, '.') == parts[1] + ['.'] + parts[2];
    assert Join(parts, '.') == parts[0] + ['.'] + Join(rest, '.');
  }

  // ---- Round trips -------------------------------------------------------------------------

  /** Table 2 of RFC 4648, by ASCII codes: A to Z, a to z, 0 to 9, minus, underscore. */
  lemma DigitIsInTable(v: Sextet)
    ensures v <= 25 ==> Digit(v) as int == 65 + v
    ensures 26 <= v <= 51 ==> Digit(v) as int == 97 + (v - 26)
    ensures 52 <= v <= 61 ==> Digit(v) as int == 48 + (v - 52)
    ensures v == 62 ==> Digit(v) as int == 45
    ensures v == 63 ==> Digit(v) as int == 95
  {
  }

  /** Four digits stand for their three bytes as one number of 24 bits, the first byte and digit highest. */
  lemma QuadIsOneNumber(a: Byte, b: Byte, c: Byte)
    ensures ((FirstSix(a) * 64 + SecondSix(a, b)) * 64 + ThirdSix(b, c)) * 64 + FourthSix(c)
            == (a as int * 256 + b as int) * 256 + c as int
  {
    assert a as int == 4 * FirstSix(a) + a as int % 4;
    assert SecondSix(a, b) == a as int % 4 * 16 + b as int / 16 && b as int == b as int / 16 * 16 + b as int % 16;
    assert ThirdSix(b, c) == b as int % 16 * 4 + c as int / 64 && c as int == c as int / 64 * 64 + FourthSix(c);
  }

  lemma ValueOfDigit(v: Sextet)
    ensures Value(Digit(v)) == Some(v)
  {
  }

  lemma FirstByte(a: Byte, b: Byte)
    ensures First(FirstSix(a), SecondSix(a, b)) == a
  {
    assert SecondSix(a, b) / 16 == a as int % 4;
  }

  lemma SecondByte(a: Byte, b: Byte, c: Byte)
    ensures Second(SecondSix(a, b), ThirdSix(b, c)) == b
  {
    assert SecondSix(a, b) % 16 == b as int / 16;
    assert ThirdSix(b, c) / 4 == b as int % 16;
  }

  lemma ThirdByte(b: Byte, c: Byte)
    ensures Third(ThirdSix(b, c), FourthSix(c)) == c
  {
    assert ThirdSix(b, c) % 4 == c as int / 64;
  }

  lemma QuadBytes(a: Byte, b: Byte, c: Byte)
    ensures First(FirstSix(a), SecondSix(a, b)) == a
    ensures Second(SecondSix(a, b), ThirdSix(b, c)) == b
    ensures Third(ThirdSix(b, c), FourthSix(c)) == c
  {
    FirstByte(a, b);
    SecondByte(a, b, c);
    ThirdByte(b, c);
  }

  lemma DecodeOneQuad(p: Sextet, q: Sextet, r: Sextet, u: Sextet, rest: string)
    requires DecodeQuads(rest).Some?
    ensures DecodeQuads([Digit(p), Digit(q), Digit(r), Digit(u)] + rest)
            == Some([First(p, q), Second(q, r), Third(r, u)] + DecodeQuads(rest).value)
  {
    var t := [Digit(p), Digit(q), Digit(r), Digit(u)] + rest;
    assert t[4..] == rest;
    ValueOfDigit(p);
    ValueOfDigit(q);
    ValueOfDigit(r);
    ValueOfDigit(u);
  }

  lemma DecodeShortTail(p: Sextet, q: Sextet, r: Sextet)
    ensures DecodeQuads([Digit(p), Digit(q)]) == Some([First(p, q)])
    ensures DecodeQuads([Digit(p), Digit(q), Digit(r)]) == Some([First(p, q), Second(q, r)])
  {
    ValueOfDigit(p);
    ValueOfDigit(q);
    ValueOfDigit(r);
  }

  lemma DecodeEncodeShort(s: Bytes)
    requires 0 < |s| < 3
    ensures DecodeQuads(Encode(s)) == Some(s)
  {
    if |s| == 1 {
      QuadBytes(s[0], 0 as char, 0 as char);
      DecodeShortTail(FirstSix(s[0]), SecondSix(s[0], 0 as char), 0);
      assert s == [s[0]];
    } else {
      QuadBytes(s[0], s[1], 0 as char);
      DecodeShortTail(FirstSix(s[0]), SecondSix(s[0], s[1]), ThirdSix(s[1], 0 as char));
      assert s == [s[0], s[1]];
    }
  }

  /** The four digits of three bytes. */
  function Quad(a: Byte, b: Byte, c: Byte): string {
    [Digit(FirstSix(a)), Digit(SecondSix(a, b)), Digit(ThirdSix(b, c)), Digit(FourthSix(c))]
  }

  lemma DecodeThreeBytes(a: Byte, b: Byte, c: Byte, rest: Bytes)
    requires DecodeQuads(Encode(rest)) == Some(rest)
    ensures DecodeQuads(Quad(a, b, c) + Encode(rest)) == Some([a, b, c] + rest)
  {
    QuadBytes(a, b, c);
    DecodeOneQuad(FirstSix(a), SecondSix(a, b), ThirdSix(b, c), FourthSix(c), Encode(rest));
  }

  lemma EncodeThreeBytes(a: Byte, b: Byte, c: Byte, rest: Bytes)
    ensures Encode([a, b, c] + rest) == Quad(a, b, c) + Encode(rest)
  {
    assert ([a, b, c] + rest)[3..] == rest;
  }

  lemma {:induction false} DecodeQuadsEncode(s: Bytes)
    ensures DecodeQuads(Encode(s)) == Some(s)
  {
    if |s| >= 3 {
      var a, b, c, rest: Bytes := s[0], s[1], s[2], s[3..];
      DecodeQuadsEncode(rest);
      assert s == [a, b, c] + rest;
      EncodeThreeBytes(a, b, c, rest);
      DecodeThreeBytes(a, b, c, rest);
    } else if |s| > 0 {
      DecodeEncodeShort(s);
    }
  }

  lemma {:induction false} NoBreaks(t: string)
    requires forall i :: 0 <= i < |t| ==> t[i] != '\r' && t[i] != '\n'
    ensures WithoutBreaks(t) == t
  {
    if t != [] {
      NoBreaks(t[1..]);
    }
  }

  /** Decoding undoes encoding, for every byte string. */
  /** Line breaks anywhere in the text change nothing. */
  lemma {:induction false} BreaksIgnored(before: string, brk: char, after: string)
    requires brk == '\r' || brk == '\n'
    ensures Decode(before + [brk] + after) == Decode(before + after)
  {
    BreakDropped(before, brk, after);
  }

  lemma {:induction false} BreakDropped(before: string, brk: char, after: string)
    requires brk == '\r' || brk == '\n'
    ensures WithoutBreaks(before + [brk] + after) == WithoutBreaks(before + after)
  {
    if before == "" {
      assert ("" + [brk] + after)[1..] == after && "" + after == after;
    } else {
      BreakDropped(before[1..], brk, after);
      assert (before + [brk] + after)[1..] == before[1..] + [brk] + after && (before + after)[1..] == before[1..] + after;
    }
  }

  lemma DecodeEncode(s: Bytes)
    ensures Decode(Encode(s)) == Some(s)
  {
    NoBreaks(Encode(s));
    DecodeQuadsEncode(s);
  }

  lemma {:induction false} ParseFormatNat(n: nat)
    ensures ParseNat(FormatNat(n)) == Some(n)
  {
    if n >= 10 {
      ParseFormatNat(n / 10);
      assert Init(FormatNat(n)) == FormatNat(n / 10);
    }
  }

  /** Parsing undoes printing, for every 64-bit integer. */
  /** The decimal spelling is the only one without leading zeros. */
  lemma {:induction false} FormatNatUnique(s: string, n: nat)
    requires ParseNat(s) == Some(n) && (|s| > 1 ==> s[0] != '0')
    ensures s == FormatNat(n)
  {
    if |s| > 1 {
      var d := Last(s) as int - '0' as int;
      var m := ParseNat(Init(s)).value;
      FormatNatUnique(Init(s), m);
      LeadingDigit(Init(s), m);
      assert n / 10 == m && n % 10 == d;
      assert s == Init(s) + [Last(s)];
    }
  }

  lemma {:induction false} LeadingDigit(s: string, n: nat)
    requires ParseNat(s) == Some(n) && s[0] != '0'
    ensures n > 0
  {
    if |s| > 1 {
      LeadingDigit(Init(s), ParseNat(Init(s)).value);
    }
  }

  lemma ParseFormatInt(n: int)
    requires INT64_MIN <= n <= INT64_MAX
    ensures ParseInt64(FormatInt(n)) == Some(n)
  {
    ParseFormatNat(if n < 0 then -n else n);
    if n < 0 {
      assert FormatInt(n)[1..] == FormatNat(-n);
    }
  }

  /** A sign in front, and nothing outside 64 bits. */
  lemma ParseSigned(n: nat)
    ensures ParseInt64(FormatNat(n)) == ParseInt64("+" + FormatNat(n)) == if n <= INT64_MAX then Some(n as int) else None
    ensures ParseInt64("-" + FormatNat(n)) == if -(n as int) >= INT64_MIN then Some(-(n as int)) else None
  {
    ParseFormatNat(n);
    assert ("+" + FormatNat(n))[1..] == FormatNat(n) && ("-" + FormatNat(n))[1..] == FormatNat(n);
  }

  lemma {:induction false} SplitAppend(a: string, b: string)
    ensures Split(a + "." + b, '.') == Split(a, '.') + Split(b, '.')
    decreases |a|
  {
    match Cut(a, '.')
    case None => SplitOff(a, b);
    case Some((before, after)) =>
      var tail := after + "." + b;
      SplitAppend(after, b);
      SplitOff(before, tail);
      assert Split(a, '.') == [before] + Split(after, '.');
      Rearranged(before, after, b);
      Regroup([before], Split(after, '.'), Split(b, '.'));
  }

  lemma Rearranged(before: string, after: string, b: string)
    ensures (before + "." + after) + "." + b == before + "." + (after + "." + b)
  {
  }

  lemma SplitOff(before: string, rest: string)
    requires '.' !in before
    ensures Split(before + "." + rest, '.') == [before] + Split(rest, '.')
  {
    CutAt(before, '.', rest);
  }

  lemma TokenParts(id: Bytes, exp: int, sig: string)
    requires INT64_MIN <= exp <= INT64_MAX && '.' !in sig
    ensures Split(id + "." + FormatInt(exp) + "." + sig, '.') == Split(id, '.') + [FormatInt(exp), sig]
  {
    SplitAppend(id + "." + FormatInt(exp), sig);
    SplitAppend(id, FormatInt(exp));
    assert '.' !in FormatInt(exp);
  }

  /** A token verifies to the very ID it was issued for, until its second of expiry is over, exactly when the ID has no dot. */
  lemma VerifyIssue(mac: Mac, id: Bytes, issued: real, ttl: real, now: real)
    requires INT64_MIN <= Unix(issued + ttl) <= INT64_MAX
    ensures Verify(mac, Issue(mac, id, issued, ttl), now)
            == if '.' in id then Malformed
               else if now.Floor > (issued + ttl).Floor then Expired
               else Verified(id)
  {
    var exp := Unix(issued + ttl);
    var payload := Payload(id, exp);
    var sig := Sign(mac, payload);
    DecodeEncode(payload + "." + Ascii(sig));
    assert '.' !in sig;
    TokenParts(id, exp, sig);
    ParseFormatInt(exp);
  }

  lemma OpensIff(mac: Mac, id: Bytes, claimed: string, issued: real, ttl: real, now: real)
    requires INT64_MIN <= Unix(issued + ttl) <= INT64_MAX
    ensures Opens(mac, Issue(mac, id, issued, ttl), claimed, now)
            <==> '.' !in id && claimed == id && now.Floor <= (issued + ttl).Floor
  {
    VerifyIssue(mac, id, issued, ttl, now);
  }

  /** What verifies was signed: it decodes to an ID and an expiry not yet past, followed by the signature of just these. */
  lemma VerifiedWasSigned(mac: Mac, token: string, now: real) returns (id: Bytes, exp: Bytes)
    requires Verify(mac, token, now).Verified?
    ensures Verify(mac, token, now) == Verified(id) && '.' !in id
    ensures Decode(token) == Some(id + "." + exp + "." + Encode(mac(id + "." + exp)))
    ensures ParseInt64(exp).Some? && now.Floor <= ParseInt64(exp).value
  {
    var raw := Decode(token).value;
    var parts := Split(raw, '.');
    JoinThree(raw, parts);
    var signed := PartsPayload(raw, parts);
    assert forall i :: 0 <= i < |parts[0]| ==> parts[0][i] == signed[i];
    assert forall i :: 0 <= i < |parts[1]| ==> parts[1][i] == signed[|parts[0]| + 1 + i];
    id, exp := parts[0], parts[1];
  }
}
