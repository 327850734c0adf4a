/**
 * DPoP proofs as the SDK makes them and the server checks them, and the guard that binds access tokens to them.
 * Cryptography and JSON are parameters with the laws needed: texts read back, what a key's holder signs verifies, and
 * thumbprints tell keys apart. That nobody else can sign is an assumption about the text presented: if its signature
 * verifies under a key, the holder's key manager signed that input at some time.
 */
module Dpop {
  import opened Text
  import opened Bytes

  datatype Jwk = Jwk(kty: string, crv: string, x: string, y: string)

  datatype Header = Header(typ: string, alg: string, jwk: Option<Jwk>)

  datatype Payload = Payload(jti: string, htm: Option<string>, htu: Option<string>, iat: Option<int>)

  /** The platform's JSON, UTF-8, ECDSA and SHA-256 thumbprints. Signing is randomised by a nonce. */
  datatype Platform = Platform(
    utf8: string -> seq<byte>,
    readUtf8: seq<byte> -> Option<string>,
    writeHeader: Header -> string,
    readHeader: string -> Option<Header>,
    writePayload: Payload -> string,
    readPayload: string -> Option<Payload>,
    sign: (Jwk, seq<byte>, nat) -> seq<byte>,
    verifies: (Jwk, seq<byte>, seq<byte>) -> bool,
    thumbprint: Jwk -> string)

  ghost predicate Laws(p: Platform) {
    && (forall s :: p.readUtf8(p.utf8(s)) == Some(s))
    && (forall h :: p.readHeader(p.writeHeader(h)) == Some(h))
    && (forall x :: p.readPayload(p.writePayload(x)) == Some(x))
    && (forall k, m, nonce :: p.verifies(k, m, p.sign(k, m, nonce)))
    && (forall j, k :: p.thumbprint(j) == p.thumbprint(k) ==> j == k)
  }

  // ---------------------------------------------------------------- text helpers

  /** `toUpperCase` for request methods, which are ASCII tokens (section 5.6.2 of RFC 9110). */
  function UpperChar(c: char): char {
    if 'a' <= c <= 'z' then (c as int - 'a' as int + 'A' as int) as char else c
  }

  function Upper(s: string): string {
    if s == [] then [] else [UpperChar(s[0])] + Upper(s[1..])
  }

  lemma {:induction false} UpperAt(s: string, i: nat)
    requires i < |s|
    ensures |Upper(s)| == |s|
    ensures Upper(s)[i] == if 97 <= s[i] as int <= 122 then (s[i] as int - 32) as char else s[i]
  {
    if i > 0 {
      UpperAt(s[1..], i - 1);
    } else if |s| > 1 {
      UpperAt(s[1..], 0);
    }
  }

  /** `url.split('?')[0].split('#')[0]` */
  function CleanUrl(url: string): string {
    Split(Split(url, '?')[0], '#')[0]
  }

  /** The part of a URL before the first '?' or '#'. */
  function BeforeQuery(url: string): string {
    if url == [] || url[0] == '?' || url[0] == '#' then [] else [url[0]] + BeforeQuery(url[1..])
  }

  lemma {:induction false} CleanUrlIsPrefix(url: string)
    ensures CleanUrl(url) == BeforeQuery(url)
  {
    if url != [] {
      CleanUrlIsPrefix(url[1..]);
      var first := Split(url, '?')[0];
      if url[0] != '?' {
        assert first == [url[0]] + Split(url[1..], '?')[0];
        assert first[1..] == Split(url[1..], '?')[0];
      }
    }
  }

  // ---------------------------------------------------------------- the client

  function JtiText(random: seq<byte>): string {
    HexEncode(random)
  }

  /** `generateJti`: two hex digits per random byte. */
  method GenerateJti(random: seq<byte>) returns (hex: string)
    ensures hex == JtiText(random)
  {
    hex := "";
    for i := 0 to |random|
      invariant hex == HexEncode(random[..i])
    {
      HexConcat(random[..i], [random[i]]);
      assert random[..i + 1] == random[..i] + [random[i]];
      hex := hex + HexEncode([random[i]]);
    }
    assert random[..|random|] == random;
  }

  function ProofHeader(k: Jwk): Header {
    Header("dpop+jwt", "ES256", Some(k))
  }

  function ProofPayload(random: seq<byte>, verb: string, url: string, nowMs: int): Payload {
    Payload(JtiText(random), Some(Upper(verb)), Some(url), Some(nowMs / 1000))
  }

  function SigningInput(p: Platform, h: Header, x: Payload): string {
    Base64Url(p.utf8(p.writeHeader(h))) + "." + Base64Url(p.utf8(p.writePayload(x)))
  }

  /** The compact form of a proof. */
  function ProofText(p: Platform, h: Header, x: Payload, signature: seq<byte>): string {
    SigningInput(p, h, x) + "." + Base64Url(signature)
  }

  function MakeProof(p: Platform, k: Jwk, random: seq<byte>, verb: string, url: string, nowMs: int, nonce: nat)
    : string
  {
    var h, x := ProofHeader(k), ProofPayload(random, verb, url, nowMs);
    ProofText(p, h, x, p.sign(k, p.utf8(SigningInput(p, h, x)), nonce))
  }

  /** What one call of `createProof` was made for. */
  datatype Occasion = Occasion(random: seq<byte>, verb: string, url: string, at: int)

  /** The text that call signs. */
  function OccasionInput(p: Platform, k: Jwk, c: Occasion): string {
    SigningInput(p, ProofHeader(k), ProofPayload(c.random, c.verb, c.url, c.at))
  }

  class DPoPKeyManager {
    const p: Platform
    /** Every proof this manager has made. */
    ghost var made: set<Occasion>
    var keyPair: Option<Jwk>
    var cachedThumbprint: Option<string>
    var cachedJwk: Option<Jwk>

    constructor (p: Platform)
      ensures this.p == p && Valid() && keyPair.None? && made == {}
    {
      this.p := p;
      made := {};
      keyPair, cachedThumbprint, cachedJwk := None, None, None;
    }

    ghost predicate Valid()
      reads this
    {
      cachedJwk == keyPair
      && cachedThumbprint == (if keyPair.Some? then Some(p.thumbprint(keyPair.value)) else None)
    }

    /** The key is generated once and kept, by calls of which none interrupts another. */
    method EnsureKey(generated: Jwk)
      requires Valid()
      modifies this
      ensures Valid() && keyPair == (if old(keyPair).Some? then old(keyPair) else Some(generated)) && made == old(made)
    {
      if keyPair.Some? {
        return;
      }
      keyPair := Some(generated);
      cachedJwk := Some(generated);
      cachedThumbprint := Some(p.thumbprint(generated));
    }

    method CreateProof(verb: string, url: string, generated: Jwk, random: seq<byte>, nowMs: int, nonce: nat)
      returns (proof: string)
      requires Valid()
      modifies this
      ensures Valid() && keyPair == if old(keyPair).Some? then old(keyPair) else Some(generated)
      ensures proof == MakeProof(p, keyPair.value, random, verb, url, nowMs, nonce)
      ensures made == old(made) + {Occasion(random, verb, url, nowMs)}
    {
      EnsureKey(generated);
      var header := Header("dpop+jwt", "ES256", cachedJwk);
      var jti := GenerateJti(random);
      var payload := Payload(jti, Some(Upper(verb)), Some(url), Some(nowMs / 1000));
      var headerB64 := BufferToBase64Url(p.utf8(p.writeHeader(header)));
      var payloadB64 := BufferToBase64Url(p.utf8(p.writePayload(payload)));
      var tokenInput := headerB64 + "." + payloadB64;
      var signature := p.sign(keyPair.value, p.utf8(tokenInput), nonce);
      var signatureB64 := BufferToBase64Url(signature);
      proof := tokenInput + "." + signatureB64;
      made := made + {Occasion(random, verb, url, nowMs)};
    }
  }

  // ---------------------------------------------------------------- the server

  datatype Verdict = Rejected | Verified(jkt: string, jwk: Jwk)

  function ReadText(p: Platform, part: string): Option<string> {
    match Decode(part)
    case None => None
    case Some(b) => p.readUtf8(b)
  }

  function ReadHeader(p: Platform, part: string): Option<Header> {
    match ReadText(p, part)
    case None => None
    case Some(s) => p.readHeader(s)
  }

  function ReadPayload(p: Platform, part: string): Option<Payload> {
    match ReadText(p, part)
    case None => None
    case Some(s) => p.readPayload(s)
  }

  function Abs(x: int): int {
    if x < 0 then -x else x
  }

  /** The claims name this method and URL and a time within two minutes of now. */
  predicate Matches(x: Payload, verb: string, url: string, nowMs: int) {
    && x.htm == Some(verb)
    && x.htu.Some? && CleanUrl(x.htu.value) == CleanUrl(url)
    && Abs(nowMs / 1000 - (if x.iat.Some? then x.iat.value else 0)) <= 120
  }

  /** `verifyDpop`. */
  function VerifyDpop(p: Platform, proof: string, verb: string, url: string, nowMs: int): Verdict {
    var parts := Split(proof, '.');
    if |parts| != 3 then Rejected
    else
      match ReadHeader(p, parts[0])
      case None => Rejected
      case Some(h) =>
        if h.typ != "dpop+jwt" || h.jwk.None? then Rejected
        else
          match (Decode(parts[2]), ReadPayload(p, parts[1]))
          case (Some(signature), Some(x)) =>
            if !p.verifies(h.jwk.value, p.utf8(parts[0] + "." + parts[1]), signature) then Rejected
            else if !Matches(x, verb, url, nowMs) then Rejected
            else Verified(p.thumbprint(h.jwk.value), h.jwk.value)
          case _ => Rejected
  }

  /**
   * What is accepted, for any text whatever: three parts, of which the first names the proof type and the key, the
   * signature holds over the first two under that key, and the second names this method, this URL before the first
   * '?' or '#', and a time within two minutes of now.
   */
  lemma VerifiedIff(p: Platform, proof: string, verb: string, url: string, nowMs: int, j: string, k: Jwk)
    ensures VerifyDpop(p, proof, verb, url, nowMs) == Verified(j, k)
            <==> var parts := Split(proof, '.');
                 && |parts| == 3
                 && ReadHeader(p, parts[0]).Some? && ReadPayload(p, parts[1]).Some? && Decode(parts[2]).Some?
                 && var h, x := ReadHeader(p, parts[0]).value, ReadPayload(p, parts[1]).value;
                 && h.typ == "dpop+jwt" && h.jwk == Some(k) && j == p.thumbprint(k)
                 && p.verifies(k, p.utf8(parts[0] + "." + parts[1]), Decode(parts[2]).value)
                 && x.htm == Some(verb) && x.htu.Some? && BeforeQuery(x.htu.value) == BeforeQuery(url)
                 && -120 <= nowMs / 1000 - (if x.iat.Some? then x.iat.value else 0) <= 120
  {
    var parts := Split(proof, '.');
    CleanUrlIsPrefix(url);
    if |parts| == 3 && ReadPayload(p, parts[1]).Some? && ReadPayload(p, parts[1]).value.htu.Some? {
      CleanUrlIsPrefix(ReadPayload(p, parts[1]).value.htu.value);
    }
  }

  /** A proof splits into exactly three parts, which decode to its header, its payload and its signature. */
  lemma ProofReadsBack(p: Platform, h: Header, x: Payload, signature: seq<byte>)
    requires Laws(p)
    ensures var parts := Split(ProofText(p, h, x, signature), '.');
            && |parts| == 3
            && parts[0] + "." + parts[1] == SigningInput(p, h, x)
            && ReadHeader(p, parts[0]) == Some(h)
            && ReadPayload(p, parts[1]) == Some(x)
            && Decode(parts[2]) == Some(signature)
  {
    var a, b, c := p.utf8(p.writeHeader(h)), p.utf8(p.writePayload(x)), signature;
    Base64UrlRoundTrip(a);
    Base64UrlRoundTrip(b);
    Base64UrlRoundTrip(c);
    SplitThree(Base64Url(a), Base64Url(b), Base64Url(c), '.');
    ReadsBack(p, p.writeHeader(h));
    ReadsBack(p, p.writePayload(x));
  }

  lemma ReadsBack(p: Platform, text: string)
    requires Laws(p)
    ensures ReadText(p, Base64Url(p.utf8(text))) == Some(text)
  {
    Base64UrlRoundTrip(p.utf8(text));
  }

  /**
   * Completeness: a proof made by `createProof` is accepted exactly when the upper-cased method is the request's,
   * the URLs agree before the first '?' or '#', and the two clocks differ by at most 120 seconds; and then it yields
   * the maker's key and thumbprint.
   */
  lemma MadeProofAcceptedIff(p: Platform, k: Jwk, random: seq<byte>, m: string, u: string, t: int, nonce: nat,
                             verb: string, url: string, nowMs: int)
    requires Laws(p)
    ensures VerifyDpop(p, MakeProof(p, k, random, m, u, t, nonce), verb, url, nowMs)
         == if Upper(m) == verb && BeforeQuery(u) == BeforeQuery(url) && Abs(nowMs / 1000 - t / 1000) <= 120
            then Verified(p.thumbprint(k), k) else Rejected
  {
    var h, x := ProofHeader(k), ProofPayload(random, m, u, t);
    var signature := p.sign(k, p.utf8(SigningInput(p, h, x)), nonce);
    ProofReadsBack(p, h, x, signature);
    assert p.verifies(k, p.utf8(SigningInput(p, h, x)), signature);
    CleanUrlIsPrefix(u);
    CleanUrlIsPrefix(url);
  }

  /** The text is a signing input and a signature that verifies for it under k. */
  predicate Verifies(p: Platform, k: Jwk, proof: string) {
    var parts := Split(proof, '.');
    && |parts| == 3
    && Decode(parts[2]).Some?
    && p.verifies(k, p.utf8(parts[0] + "." + parts[1]), Decode(parts[2]).value)
  }

  /** The text begins with the signing input of this occasion. */
  predicate Carries(p: Platform, k: Jwk, c: Occasion, proof: string) {
    var parts := Split(proof, '.');
    |parts| == 3 && p.utf8(parts[0] + "." + parts[1]) == p.utf8(OccasionInput(p, k, c))
  }

  /**
   * Only the holder signs: if the presented signature verifies under k, what it signs is the input of one of the
   * occasions on which the holder's key manager made a proof.
   */
  ghost predicate Unforged(p: Platform, k: Jwk, made: set<Occasion>, proof: string) {
    Verifies(p, k, proof) ==> exists c :: c in made && Carries(p, k, c, proof)
  }

  /** The request is the one the occasion was for, give or take the query and two minutes. */
  predicate MadeFor(c: Occasion, verb: string, url: string, nowMs: int) {
    Upper(c.verb) == verb && BeforeQuery(c.url) == BeforeQuery(url) && Abs(nowMs / 1000 - c.at / 1000) <= 120
  }

  /** A text that carries an occasion's input decodes to that occasion's header and payload. */
  lemma CarriedReadsBack(p: Platform, k: Jwk, c: Occasion, proof: string)
    requires Laws(p) && Carries(p, k, c, proof)
    ensures var parts := Split(proof, '.');
            && ReadHeader(p, parts[0]) == Some(Header("dpop+jwt", "ES256", Some(k)))
            && ReadPayload(p, parts[1])
               == Some(Payload(HexEncode(c.random), Some(Upper(c.verb)), Some(c.url), Some(c.at / 1000)))
  {
    var parts := Split(proof, '.');
    var h, x := p.writeHeader(ProofHeader(k)), p.writePayload(ProofPayload(c.random, c.verb, c.url, c.at));
    assert p.readUtf8(p.utf8(parts[0] + "." + parts[1])) == p.readUtf8(p.utf8(OccasionInput(p, k, c)));
    Base64UrlRoundTrip(p.utf8(h));
    PrefixInjective(parts[0], Base64Url(p.utf8(h)), '.', parts[1], Base64Url(p.utf8(x)));
    ReadsBack(p, h);
    ReadsBack(p, x);
  }

  /** A text carrying an occasion's input is accepted for k exactly when its signature verifies and the request fits. */
  lemma CarriedAcceptedIff(p: Platform, k: Jwk, c: Occasion, proof: string, verb: string, url: string, nowMs: int)
    requires Laws(p) && Carries(p, k, c, proof)
    ensures VerifyDpop(p, proof, verb, url, nowMs)
         == if Verifies(p, k, proof) && MadeFor(c, verb, url, nowMs) then Verified(p.thumbprint(k), k) else Rejected
  {
    CarriedReadsBack(p, k, c, proof);
    CleanUrlIsPrefix(c.url);
    CleanUrlIsPrefix(url);
  }

  /**
   * Soundness for whatever text is presented: it is accepted for key k if and only if it is a proof, with a signature
   * that verifies, which the holder of k made for this method and URL not more than two minutes ago or ahead.
   */
  lemma AcceptedIffMade(p: Platform, k: Jwk, made: set<Occasion>, proof: string, verb: string, url: string, nowMs: int)
    requires Laws(p) && Unforged(p, k, made, proof)
    ensures VerifyDpop(p, proof, verb, url, nowMs) == Verified(p.thumbprint(k), k)
            <==> && Verifies(p, k, proof)
                 && exists c :: c in made && Carries(p, k, c, proof) && MadeFor(c, verb, url, nowMs)
  {
    if VerifyDpop(p, proof, verb, url, nowMs) == Verified(p.thumbprint(k), k) {
      assert Verifies(p, k, proof);
      var c :| c in made && Carries(p, k, c, proof);
      CarriedAcceptedIff(p, k, c, proof, verb, url, nowMs);
    }
    if c :| c in made && Carries(p, k, c, proof) && MadeFor(c, verb, url, nowMs) && Verifies(p, k, proof) {
      CarriedAcceptedIff(p, k, c, proof, verb, url, nowMs);
    }
  }

  // ---------------------------------------------------------------- the guard

  datatype Claims = Claims(sub: string, tenantId: string, email: Option<string>, username: Option<string>,
                           jkt: Option<string>)

  datatype Request = Request(authorization: Option<string>, dpop: Option<string>, secure: bool, host: string,
                             originalUrl: string, verb: string)

  /** Access tokens: the key id in the header, and the claims if signature, issuer and expiry hold under a key. */
  datatype Jwt = Jwt(kidOf: string -> Option<string>, verify: (string, string) -> Option<Claims>)

  function RequestUrl(r: Request): string {
    (if r.secure then "https" else "http") + "://" + r.host + r.originalUrl
  }

  const BEARER := "Bearer "

  /** The claims of the access token the request carries, verified under the key its key id names. */
  function TokenClaims(r: Request, keys: map<string, string>, jwt: Jwt): Option<Claims> {
    match Truthy(r.authorization)
    case None => None
    case Some(a) =>
      if !StartsWith(a, BEARER) then None
      else
        match Truthy(jwt.kidOf(a[7..]))
        case None => None
        case Some(kid) => if kid in keys then jwt.verify(a[7..], keys[kid]) else None
  }

  /** `canActivate`: the user bound to the request, or None for an unauthorized one. */
  function CanActivate(p: Platform, r: Request, keys: map<string, string>, jwt: Jwt, nowMs: int): Option<Claims> {
    match TokenClaims(r, keys, jwt)
    case None => None
    case Some(claims) =>
      match Truthy(claims.jkt)
      case None => Some(claims)
      case Some(jkt) =>
        match Truthy(r.dpop)
        case None => None
        case Some(proof) =>
          match VerifyDpop(p, proof, r.verb, RequestUrl(r), nowMs)
          case Rejected => None
          case Verified(j, _) => if j == jkt then Some(claims) else None
  }

  /** The guard's binding check: the proof must be accepted for the key whose thumbprint the token carries. */
  lemma BoundIff(p: Platform, r: Request, keys: map<string, string>, jwt: Jwt, nowMs: int, k: Jwk)
    requires Laws(p) && p.thumbprint(k) != ""
    requires TokenClaims(r, keys, jwt).Some? && TokenClaims(r, keys, jwt).value.jkt == Some(p.thumbprint(k))
    ensures CanActivate(p, r, keys, jwt, nowMs)
         == if r.dpop.Some? && VerifyDpop(p, r.dpop.value, r.verb, RequestUrl(r), nowMs) == Verified(p.thumbprint(k), k)
            then TokenClaims(r, keys, jwt) else None
  {
    if Truthy(r.dpop).Some? {
      var verdict := VerifyDpop(p, r.dpop.value, r.verb, RequestUrl(r), nowMs);
      if verdict.Verified? && verdict.jkt == p.thumbprint(k) {
        assert p.thumbprint(verdict.jwk) == p.thumbprint(k);
        assert verdict.jwk == k;
      }
    } else if r.dpop.Some? {
      assert Split("", '.') == [""];
    }
  }

  /**
   * A request whose valid access token is bound to key k gets through exactly when it carries a proof the holder of k
   * made for this method and URL, not more than two minutes ago or ahead; and then with that token's claims.
   */
  lemma BoundTokenIffFreshProof(p: Platform, r: Request, keys: map<string, string>, jwt: Jwt, nowMs: int, k: Jwk,
                                made: set<Occasion>)
    requires Laws(p) && p.thumbprint(k) != ""
    requires TokenClaims(r, keys, jwt).Some? && TokenClaims(r, keys, jwt).value.jkt == Some(p.thumbprint(k))
    requires r.dpop.Some? ==> Unforged(p, k, made, r.dpop.value)
    ensures var url := (if r.secure then "https" else "http") + "://" + r.host + r.originalUrl;
            CanActivate(p, r, keys, jwt, nowMs)
            == if r.dpop.Some? && Verifies(p, k, r.dpop.value)
                  && exists c :: c in made && Carries(p, k, c, r.dpop.value) && MadeFor(c, r.verb, url, nowMs)
               then TokenClaims(r, keys, jwt) else None
  {
    BoundIff(p, r, keys, jwt, nowMs, k);
    if r.dpop.Some? {
      AcceptedIffMade(p, k, made, r.dpop.value, r.verb, RequestUrl(r), nowMs);
    }
  }

  /**
   * Whose claims a request without a key binding gets: those its bearer token carries, when the token's key id names
   * a known key under which it verifies, whatever proof comes along; without such a token no request gets through.
   */
  lemma UnboundTokenNeedsNoProof(p: Platform, r: Request, keys: map<string, string>, jwt: Jwt, nowMs: int)
    ensures forall token, kid, claims ::
              r.authorization == Some("Bearer " + token) && jwt.kidOf(token) == Some(kid) && kid != "" && kid in keys
              && jwt.verify(token, keys[kid]) == Some(claims) && (claims.jkt == None || claims.jkt == Some(""))
              ==> CanActivate(p, r, keys, jwt, nowMs) == Some(claims)
    ensures CanActivate(p, r, keys, jwt, nowMs).Some? ==>
              exists token, kid :: r.authorization == Some("Bearer " + token) && jwt.kidOf(token) == Some(kid)
                && kid in keys && jwt.verify(token, keys[kid]) == CanActivate(p, r, keys, jwt, nowMs)
  {
    forall token | r.authorization == Some("Bearer " + token)
      ensures ("Bearer " + token)[7..] == token && StartsWith("Bearer " + token, BEARER)
    {
    }
    if CanActivate(p, r, keys, jwt, nowMs).Some? {
      var a := r.authorization.value;
      assert a == "Bearer " + a[7..];
      assert jwt.kidOf(a[7..]) == Some(jwt.kidOf(a[7..]).value);
    }
  }
}
