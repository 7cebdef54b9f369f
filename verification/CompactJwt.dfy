/** Identity assertion tokens: compact serialisation (section 7.1 of RFC 7515), and the claims that
    are read back from a token without checking its signature. */
module CompactJwt {
  import opened Text
  import opened Domain
  import opened Base64Url

  datatype ExtIdentity = ExtIdentity(originJTI: string, groups: seq<string>, entitlements: seq<string>,
                                     provider: string)

  datatype Claims = Claims(iss: string, sub: string, aud: string, iat: int, exp: int, jti: string, ext: ExtIdentity)

  /** JSON, as functions: `readSub` and `readJTI` unmarshal one claim of a payload. */
  datatype Codec = Codec(marshalHeader: map<string, string> -> seq<Byte>, marshalClaims: Claims -> seq<Byte>,
                         readSub: seq<Byte> -> Option<string>, readJTI: seq<Byte> -> Option<string>)

  ghost predicate Sound(c: Codec) {
    && (forall claims :: c.readSub(c.marshalClaims(claims)) == Some(claims.sub))
    && (forall claims :: c.readJTI(c.marshalClaims(claims)) == Some(claims.jti))
  }

  const SECOND := 1_000_000_000

  /** `jwtHeader` */
  function JwtHeader(kid: string): map<string, string> {
    var h := map["alg" := "RS256", "typ" := "JWT"];
    if kid != "" then h["kid" := kid] else h
  }

  function ClaimsFor(cfg: AssertionConfig, identity: Identity, originJTI: string, now: int, jti: string): Claims {
    Claims(cfg.issuer, identity.userID, cfg.audience, now / SECOND, (now + cfg.ttl) / SECOND, jti,
           ExtIdentity(originJTI, identity.groups, identity.entitlements, identity.provider))
  }

  /** `Mint`, given the time, a new token id and the signing service. */
  function Mint(c: Codec, cfg: AssertionConfig, identity: Identity, originJTI: string, now: int, jti: string,
                sign: string -> Option<seq<Byte>>): Option<string>
  {
    var header := Encode(c.marshalHeader(JwtHeader(cfg.signingKeyID)));
    var payload := Encode(c.marshalClaims(ClaimsFor(cfg, identity, originJTI, now, jti)));
    match sign(header + "." + payload)
    case None => None
    case Some(signature) => Some(header + "." + payload + "." + Encode(signature))
  }

  /** The decoded payload of a token with three parts. */
  function PayloadOf(token: string): Option<seq<Byte>> {
    var parts := Split(token, '.');
    if |parts| != 3 then None else Decode(parts[1])
  }

  function UserIDFromToken(c: Codec, token: string): string {
    match PayloadOf(token)
    case None => ""
    case Some(payload) => match c.readSub(payload) case None => "" case Some(sub) => sub
  }

  function OriginJTIFromToken(c: Codec, token: string): string {
    if token == "" then ""
    else
      match PayloadOf(token)
      case None => ""
      case Some(payload) => match c.readJTI(payload) case None => "" case Some(jti) => jti
  }

  lemma ThreeParts(a: string, b: string, d: string)
    requires '.' !in a && '.' !in b && '.' !in d
    ensures Split(a + "." + b + "." + d, '.') == [a, b, d]
  {
    Regroup(a, b, d);
    SplitCons(a, b + ['.'] + d, '.');
    SplitCons(b, d, '.');
    SplitNone(d, '.');
  }

  lemma Regroup(a: string, b: string, d: string)
    ensures a + "." + b + "." + d == a + ['.'] + (b + ['.'] + d)
  {
  }

  /** A minted token has exactly three parts, the signed text being the first two, and gives back
      the user it was minted for and its own id. */
  lemma MintedReadsBack(c: Codec, cfg: AssertionConfig, identity: Identity, originJTI: string, now: int, jti: string,
                        sign: string -> Option<seq<Byte>>)
    requires Sound(c)
    requires Mint(c, cfg, identity, originJTI, now, jti, sign).Some?
    ensures var token := Mint(c, cfg, identity, originJTI, now, jti, sign).value;
            && |Split(token, '.')| == 3
            && sign(Split(token, '.')[0] + "." + Split(token, '.')[1]).Some?
            && Decode(Split(token, '.')[2]) == sign(Split(token, '.')[0] + "." + Split(token, '.')[1])
            && PayloadOf(token) == Some(c.marshalClaims(ClaimsFor(cfg, identity, originJTI, now, jti)))
            && UserIDFromToken(c, token) == identity.userID
            && OriginJTIFromToken(c, token) == jti
  {
    var header := Encode(c.marshalHeader(JwtHeader(cfg.signingKeyID)));
    var claims := ClaimsFor(cfg, identity, originJTI, now, jti);
    var payload := Encode(c.marshalClaims(claims));
    var signature := sign(header + "." + payload).value;
    RoundTrip(c.marshalHeader(JwtHeader(cfg.signingKeyID)));
    RoundTrip(c.marshalClaims(claims));
    RoundTrip(signature);
    ThreeParts(header, payload, Encode(signature));
  }

  /** The design promises that a token lives exactly for the configured time. The claims are whole seconds,
      so that is so exactly when the configured time is. */
  lemma LifetimeIsTTLIffWholeSeconds(cfg: AssertionConfig, identity: Identity, originJTI: string, now: int, jti: string)
    ensures var claims := ClaimsFor(cfg, identity, originJTI, now, jti);
            (claims.exp - claims.iat) * SECOND == cfg.ttl <==> cfg.ttl % SECOND == 0
  {
    if cfg.ttl % SECOND == 0 {
      var k := cfg.ttl / SECOND;
      assert now + cfg.ttl == now + k * SECOND;
    }
  }

  /** Claims that are minted: every field, by its name. */
  ghost predicate ClaimsAre(claims: Claims, cfg: AssertionConfig, identity: Identity, originJTI: string, now: int,
                            jti: string) {
    && claims.iss == cfg.issuer && claims.sub == identity.userID && claims.aud == cfg.audience && claims.jti == jti
    && claims.iat * 1_000_000_000 <= now < (claims.iat + 1) * 1_000_000_000
    && claims.exp * 1_000_000_000 <= now + cfg.ttl < (claims.exp + 1) * 1_000_000_000
    && claims.ext.originJTI == originJTI && claims.ext.groups == identity.groups
    && claims.ext.entitlements == identity.entitlements && claims.ext.provider == identity.provider
  }

  lemma ClaimsForAre(cfg: AssertionConfig, identity: Identity, originJTI: string, now: int, jti: string)
    ensures ClaimsAre(ClaimsFor(cfg, identity, originJTI, now, jti), cfg, identity, originJTI, now, jti)
  {
  }

  /** What a minted token says: its header names the algorithm, the type and the key id if there is one, its payload
      these claims and no others. */
  lemma MintedSays(c: Codec, cfg: AssertionConfig, identity: Identity, originJTI: string, now: int, jti: string,
                   sign: string -> Option<seq<Byte>>)
    requires Sound(c)
    requires Mint(c, cfg, identity, originJTI, now, jti, sign).Some?
    ensures var token := Mint(c, cfg, identity, originJTI, now, jti, sign).value;
            && (exists claims :: PayloadOf(token) == Some(c.marshalClaims(claims))
                              && ClaimsAre(claims, cfg, identity, originJTI, now, jti))
            && exists header :: Decode(Split(token, '.')[0]) == Some(c.marshalHeader(header))
                             && (forall field | field in header :: field in {"alg", "typ", "kid"})
                             && "alg" in header && header["alg"] == "RS256" && "typ" in header && header["typ"] == "JWT"
                             && ("kid" in header <==> cfg.signingKeyID != "")
                             && ("kid" in header ==> header["kid"] == cfg.signingKeyID)
  {
    MintedReadsBack(c, cfg, identity, originJTI, now, jti, sign);
    ClaimsForAre(cfg, identity, originJTI, now, jti);
    MintedHeader(c, cfg, identity, originJTI, now, jti, sign);
    HeaderSays(cfg.signingKeyID);
  }

  lemma HeaderSays(kid: string)
    ensures var header := JwtHeader(kid);
            && (forall field | field in header :: field in {"alg", "typ", "kid"})
            && "alg" in header && header["alg"] == "RS256" && "typ" in header && header["typ"] == "JWT"
            && ("kid" in header <==> kid != "") && ("kid" in header ==> header["kid"] == kid)
  {
  }

  lemma MintedHeader(c: Codec, cfg: AssertionConfig, identity: Identity, originJTI: string, now: int, jti: string,
                     sign: string -> Option<seq<Byte>>)
    requires Mint(c, cfg, identity, originJTI, now, jti, sign).Some?
    ensures var token := Mint(c, cfg, identity, originJTI, now, jti, sign).value;
            && |Split(token, '.')| == 3
            && Decode(Split(token, '.')[0]) == Some(c.marshalHeader(JwtHeader(cfg.signingKeyID)))
  {
    var header := Encode(c.marshalHeader(JwtHeader(cfg.signingKeyID)));
    var payload := Encode(c.marshalClaims(ClaimsFor(cfg, identity, originJTI, now, jti)));
    var signature := sign(header + "." + payload).value;
    RoundTrip(c.marshalHeader(JwtHeader(cfg.signingKeyID)));
    RoundTrip(c.marshalClaims(ClaimsFor(cfg, identity, originJTI, now, jti)));
    RoundTrip(signature);
    ThreeParts(header, payload, Encode(signature));
  }

  /** A token of three parts whose middle part decodes to `payload`. */
  ghost predicate HasPayload(token: string, payload: seq<Byte>) {
    exists a, b, d ::
      '.' !in a && '.' !in b && '.' !in d && token == a + "." + b + "." + d && Decode(b) == Some(payload)
  }

  lemma PayloadIff(token: string, payload: seq<Byte>)
    ensures PayloadOf(token) == Some(payload) <==> HasPayload(token, payload)
  {
    var parts := Split(token, '.');
    if |parts| == 3 {
      JoinSplit(token, '.');
      var a, b, d := parts[0], parts[1], parts[2];
      assert a in parts && b in parts && d in parts;
      JoinThree(parts, '.');
      Regroup(a, b, d);
    }
    if a, b, d :| '.' !in a && '.' !in b && '.' !in d && token == a + "." + b + "." + d && Decode(b) == Some(payload) {
      ThreeParts(a, b, d);
    }
  }

  lemma JoinThree(parts: seq<string>, c: char)
    requires |parts| == 3
    ensures Join(parts, c) == parts[0] + [c] + (parts[1] + [c] + parts[2])
  {
    assert parts == [parts[0]] + ([parts[1]] + [parts[2]]);
    JoinCons(parts[1], [parts[2]], c);
    JoinCons(parts[0], [parts[1]] + [parts[2]], c);
  }

  /** A user id is read from exactly the tokens of three parts whose payload names one, and a token id likewise. */
  lemma ReadsIff(c: Codec, token: string, x: string)
    requires x != ""
    ensures UserIDFromToken(c, token) == x <==>
            exists payload :: HasPayload(token, payload) && c.readSub(payload) == Some(x)
    ensures OriginJTIFromToken(c, token) == x <==>
            exists payload :: HasPayload(token, payload) && c.readJTI(payload) == Some(x)
  {
    forall payload ensures PayloadOf(token) == Some(payload) <==> HasPayload(token, payload) {
      PayloadIff(token, payload);
    }
    if token == "" {
      assert Split(token, '.') == [""];
    }
  }
}
