/**
  Session tokens (internal/master/auth/jwt.go; RFC 7515 section 7.1).

  HMAC-SHA256 under the manager's secret and the JSON codec are parameters.
 */
module Jwt {
  import opened Types
  import opened BitGroups
  import opened Strings

  datatype Claims = Claims(username: string, role: string, exp: int, iat: int)

  datatype Manager = Manager(
    sign: string -> seq<byte>,
    marshal: Claims -> seq<byte>,
    unmarshal: seq<byte> -> Option<Claims>,
    ttl: int)

  datatype Error = InvalidFormat | InvalidSignature | InvalidPayload | InvalidClaims | Expired

  datatype Result = Ok(claims: Claims) | Err(error: Error)

  const HEADER_JSON := "{\"alg\":\"HS256\",\"typ\":\"JWT\"}"

  const SECOND := 1_000_000_000

  /** Seconds since 1970 of a time in nanoseconds. */
  function Unix(time: int): int {
    time / SECOND
  }

  /** The bytes of a string whose characters stand for bytes. */
  function Bytes(s: string): seq<byte> {
    seq(|s|, i requires 0 <= i < |s| => (s[i] as int) % 256)
  }

  function ClaimsFor(m: Manager, username: string, role: string, now: int): Claims {
    Claims(username, role, Unix(now + m.ttl), Unix(now))
  }

  /** Everything of a token that gets signed. */
  function SigningInput(header: string, payload: string): string {
    header + "." + payload
  }

  function SignedToken(m: Manager, header: seq<byte>, payload: seq<byte>): string {
    var input := SigningInput(Encode(Base64Url, header), Encode(Base64Url, payload));
    input + "." + Encode(Base64Url, m.sign(input))
  }

  function GenerateToken(m: Manager, username: string, role: string, now: int): string {
    SignedToken(m, Bytes(HEADER_JSON), m.marshal(ClaimsFor(m, username, role, now)))
  }

  function ValidateToken(m: Manager, token: string, now: int): Result {
    var parts := Split(token, '.');
    if |parts| != 3 then Err(InvalidFormat)
    else if Encode(Base64Url, m.sign(SigningInput(parts[0], parts[1]))) != parts[2] then Err(InvalidSignature)
    else match Decode(Base64Url, parts[1])
      case None => Err(InvalidPayload)
      case Some(payload) =>
        match m.unmarshal(payload)
        case None => Err(InvalidClaims)
        case Some(claims) => if Unix(now) > claims.exp then Err(Expired) else Ok(claims)
  }

  // ---------- splitting and joining ----------

  /** Three segments without dots, joined by dots, split into themselves. */
  lemma ThreeSegments(h: string, p: string, s: string)
    requires Free(h, '.') && Free(p, '.') && Free(s, '.')
    ensures Split(SigningInput(h, p) + "." + s, '.') == [h, p, s]
  {
    assert SigningInput(h, p) + "." + s == h + ['.'] + (p + ['.'] + s);
    SplitFirst(h, p + ['.'] + s, '.');
    SplitFirst(p, s, '.');
    SplitWhole(s, '.');
  }

  lemma EncodedIsDotFree(bytes: seq<byte>)
    ensures Free(Encode(Base64Url, bytes), '.')
  {
    EncodedChars(Base64Url, bytes);
    assert ValueOf(Base64Url, '.') == None;
  }

  /** A signed token splits into its segments, and its signature checks. */
  lemma SignedSplits(m: Manager, header: string, payload: string)
    requires Free(header, '.') && Free(payload, '.')
    ensures var input := SigningInput(header, payload);
            Split(input + "." + Encode(Base64Url, m.sign(input)), '.') == [header, payload, Encode(Base64Url, m.sign(input))]
  {
    EncodedIsDotFree(m.sign(SigningInput(header, payload)));
    ThreeSegments(header, payload, Encode(Base64Url, m.sign(SigningInput(header, payload))));
  }

  // ---------- main results ----------

  lemma ValidatesSigned(m: Manager, header: seq<byte>, payload: seq<byte>, now: int)
    ensures ValidateToken(m, SignedToken(m, header, payload), now)
            == match m.unmarshal(payload)
               case None => Err(InvalidClaims)
               case Some(claims) => if Unix(now) > claims.exp then Err(Expired) else Ok(claims)
  {
    SegmentsDecode(m, header, payload);
  }

  /**
    Main result: a generated token is accepted with the user's name and role, the second it was
    issued in and its expiry until the expiry second has passed, and rejected as expired from
    then on. Times are in nanoseconds, and the JSON codec gives back these claims.
   */
  lemma TokenRoundTrip(m: Manager, username: string, role: string, issued: int, now: int)
    requires var claims := Claims(username, role, (issued + m.ttl) / 1_000_000_000, issued / 1_000_000_000);
             m.unmarshal(m.marshal(claims)) == Some(claims)
    ensures ValidateToken(m, GenerateToken(m, username, role, issued), now)
            == if now / 1_000_000_000 <= (issued + m.ttl) / 1_000_000_000
               then Ok(Claims(username, role, (issued + m.ttl) / 1_000_000_000, issued / 1_000_000_000))
               else Err(Expired)
  {
    ValidatesSigned(m, Bytes(HEADER_JSON), m.marshal(ClaimsFor(m, username, role, issued)), now);
  }

  lemma SegmentsDecode(m: Manager, header: seq<byte>, payload: seq<byte>)
    ensures var parts := Split(SignedToken(m, header, payload), '.');
            && |parts| == 3
            && Decode(Base64Url, parts[0]) == Some(header)
            && Decode(Base64Url, parts[1]) == Some(payload)
            && Decode(Base64Url, parts[2]) == Some(m.sign(parts[0] + "." + parts[1]))
            && parts[2] == Encode(Base64Url, m.sign(parts[0] + "." + parts[1]))
  {
    EncodedIsDotFree(header);
    EncodedIsDotFree(payload);
    SignedSplits(m, Encode(Base64Url, header), Encode(Base64Url, payload));
    DecodeEncode(Base64Url, header);
    DecodeEncode(Base64Url, payload);
    DecodeEncode(Base64Url, m.sign(SigningInput(Encode(Base64Url, header), Encode(Base64Url, payload))));
  }

  /** The segments of a token carry the header, the claims and the signature of both. */
  lemma TokenSegments(m: Manager, username: string, role: string, now: int)
    ensures var parts := Split(GenerateToken(m, username, role, now), '.');
            && |parts| == 3
            && Decode(Base64Url, parts[0]) == Some(Bytes(HEADER_JSON))
            && Decode(Base64Url, parts[1])
               == Some(m.marshal(Claims(username, role, (now + m.ttl) / 1_000_000_000, now / 1_000_000_000)))
            && Decode(Base64Url, parts[2]) == Some(m.sign(parts[0] + "." + parts[1]))
  {
    SegmentsDecode(m, Bytes(HEADER_JSON), m.marshal(ClaimsFor(m, username, role, now)));
  }

  function Dots(s: string): nat {
    if s == "" then 0 else Dots(s[1..]) + (if s[0] == '.' then 1 else 0)
  }

  lemma {:induction false} PartsAreDotsAndOne(s: string)
    ensures |Split(s, '.')| == Dots(s) + 1
  {
    if s != "" {
      PartsAreDotsAndOne(s[1..]);
    }
  }

  /** The first of the checks that a token fails is the one reported. */
  lemma RejectedExactly(m: Manager, token: string, now: int)
    ensures ValidateToken(m, token, now) == Err(InvalidFormat) <==> Dots(token) != 2
    ensures ValidateToken(m, token, now) == Err(InvalidSignature)
            <==> Dots(token) == 2 && !exists header, payload :: SignedBy(m, token, header, payload)
    ensures forall header, payload :: SignedBy(m, token, header, payload) ==>
              (ValidateToken(m, token, now) == Err(InvalidPayload) <==> Decode(Base64Url, payload).None?)
    ensures forall header, payload :: SignedBy(m, token, header, payload) ==>
              (ValidateToken(m, token, now) == Err(InvalidClaims)
               <==> Decode(Base64Url, payload).Some? && m.unmarshal(Decode(Base64Url, payload).value).None?)
  {
    PartsAreDotsAndOne(token);
    var parts := Split(token, '.');
    if |parts| == 3 {
      ThreeParts(token, parts);
      if Encode(Base64Url, m.sign(SigningInput(parts[0], parts[1]))) == parts[2] {
        assert SignedBy(m, token, parts[0], parts[1]);
      }
    }
    forall header, payload | SignedBy(m, token, header, payload) ensures parts == [header, payload, Encode(Base64Url, m.sign(SigningInput(header, payload)))] {
      SignedSplits(m, header, payload);
    }
  }

  /** token is header.payload.signature with the signature that belongs to the first two. */
  ghost predicate SignedBy(m: Manager, token: string, header: string, payload: string) {
    && Free(header, '.') && Free(payload, '.')
    && token == SigningInput(header, payload) + "." + Encode(Base64Url, m.sign(SigningInput(header, payload)))
  }

  /** The payload segment says these claims. */
  ghost predicate Says(m: Manager, payload: string, claims: Claims) {
    Decode(Base64Url, payload).Some? && m.unmarshal(Decode(Base64Url, payload).value) == Some(claims)
  }

  /** A token of three segments is these joined by dots. */
  lemma ThreeParts(token: string, parts: seq<string>)
    requires parts == Split(token, '.') && |parts| == 3
    ensures Free(parts[0], '.') && Free(parts[1], '.')
    ensures token == SigningInput(parts[0], parts[1]) + "." + parts[2]
  {
    JoinSplit(token, '.');
    assert parts[1..] == [parts[1], parts[2]] && parts[1..][1..] == [parts[2]];
    assert Join(parts[1..], '.') == parts[1] + "." + parts[2];
    assert Join(parts, '.') == parts[0] + "." + (parts[1] + "." + parts[2]);
  }

  lemma AcceptedIsSigned(m: Manager, token: string, now: int, claims: Claims) returns (header: string, payload: string)
    requires ValidateToken(m, token, now) == Ok(claims)
    ensures Unix(now) <= claims.exp && SignedBy(m, token, header, payload) && Says(m, payload, claims)
  {
    var parts := Split(token, '.');
    ThreeParts(token, parts);
    header, payload := parts[0], parts[1];
  }

  lemma SignedIsAccepted(m: Manager, token: string, now: int, claims: Claims, header: string, payload: string)
    requires Unix(now) <= claims.exp && SignedBy(m, token, header, payload) && Says(m, payload, claims)
    ensures ValidateToken(m, token, now) == Ok(claims)
  {
    SignedSplits(m, header, payload);
  }

  /** Main result: exactly the correctly signed, readable, unexpired tokens are accepted. */
  lemma AcceptedExactly(m: Manager, token: string, now: int, claims: Claims)
    ensures ValidateToken(m, token, now) == Ok(claims)
            <==> Unix(now) <= claims.exp
                 && exists header, payload :: SignedBy(m, token, header, payload) && Says(m, payload, claims)
  {
    if ValidateToken(m, token, now) == Ok(claims) {
      var header, payload := AcceptedIsSigned(m, token, now, claims);
    }
    if header, payload :| Unix(now) <= claims.exp && SignedBy(m, token, header, payload) && Says(m, payload, claims) {
      SignedIsAccepted(m, token, now, claims, header, payload);
    }
  }

  /** Accepted tokens with the same header and payload segments are the same token. */
  lemma SignatureIsDetermined(m: Manager, token: string, token': string, now: int, now': int)
    requires ValidateToken(m, token, now).Ok? && ValidateToken(m, token', now').Ok?
    requires Split(token, '.')[..2] == Split(token', '.')[..2]
    ensures token == token'
  {
    JoinSplit(token, '.');
    JoinSplit(token', '.');
    var parts, parts' := Split(token, '.'), Split(token', '.');
    assert parts[0] == parts[..2][0] && parts[1] == parts[..2][1];
    assert parts'[0] == parts'[..2][0] && parts'[1] == parts'[..2][1];
    assert parts == parts';
  }
}
