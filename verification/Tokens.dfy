/** Verifying a bearer token against the keys of the authorisation server. */
module Tokens {
  import opened Wrappers
  import opened Text
  import opened Options
  import opened Ports
  import opened JwksCache
  import JwksHeap

  datatype Config = Config(issuer: string, audience: string)

  datatype Header = Header(alg: string, kid: string)

  datatype TokenClaims = TokenClaims(iss: string, sub: string, aud: Value, clientId: string, scope: string, exp: int)

  /** base64url, JSON and HMAC-SHA256, as unknown functions. */
  datatype Codecs = Codecs(decode: JwksHeap.Decoder, header: Secret -> Option<Header>,
                           claims: Secret -> Option<TokenClaims>, mac: (Secret, string) -> Secret)

  datatype TokenError =
    | MissingBearer | MalformedJwt | InvalidAlg | InvalidSig | IssuerMismatch | AudienceMissing | TokenExpired
    | KeyNotFound | FetchFailed

  /** The text of an error; a failed fetch has a text of its own. */
  function ErrorText(e: TokenError, fetchError: string): string {
    match e
    case MissingBearer => "missing bearer token"
    case MalformedJwt => "malformed jwt"
    case InvalidAlg => "invalid jwt alg"
    case InvalidSig => "invalid jwt signature"
    case IssuerMismatch => "issuer mismatch"
    case AudienceMissing => "audience mismatch"
    case TokenExpired => "token expired"
    case KeyNotFound => "jwks key not found"
    case FetchFailed => fetchError
  }

  /** A token taken apart: its header and claims, its signature, and the text the signature covers. */
  datatype Parsed = Parsed(header: Header, claims: TokenClaims, signature: Secret, signed: string)

  const BEARER := "Bearer "

  function TokenOf(bearer: string): string {
    var t := TrimSpace(bearer);
    TrimSpace(if BEARER <= t then t[|BEARER|..] else t)
  }

  function Parse(codecs: Codecs, bearer: string): Result<Parsed, TokenError> {
    var token := TokenOf(bearer);
    var parts := Split(token, '.');
    if token == "" then Err(MissingBearer)
    else if |parts| != 3 then Err(MalformedJwt)
    else
      var headerBytes, payloadBytes, signature := codecs.decode(parts[0]), codecs.decode(parts[1]),
        codecs.decode(parts[2]);
      if headerBytes.None? || payloadBytes.None? || signature.None? then Err(MalformedJwt)
      else
        var header, claims := codecs.header(headerBytes.value), codecs.claims(payloadBytes.value);
        if header.None? then Err(MalformedJwt)
        else if !EqualFold(header.value.alg, "HS256") then Err(InvalidAlg)
        else if claims.None? then Err(MalformedJwt)
        else Ok(Parsed(header.value, claims.value, signature.value, parts[0] + "." + parts[1]))
  }

  predicate AudContains(aud: Value, want: string) {
    var w := TrimSpace(want);
    w == "" || match aud
               case Str(s) => s == w
               case List(items) => Str(w) in items
               case _ => false
  }

  function Judge(config: Config, codecs: Codecs, p: Parsed, secret: Secret, now: int): Result<Claims, TokenError> {
    if codecs.mac(secret, p.signed) != p.signature then Err(InvalidSig)
    else if TrimSpace(config.issuer) != "" && p.claims.iss != config.issuer then Err(IssuerMismatch)
    else if TrimSpace(config.audience) != "" && !AudContains(p.claims.aud, config.audience) then Err(AudienceMissing)
    else if p.claims.exp > 0 && now >= p.claims.exp then Err(TokenExpired)
    else Ok(ClaimsOf(p.claims))
  }

  function ClaimsOf(c: TokenClaims): Claims {
    Claims(c.sub, if c.clientId == "" then c.sub else c.clientId, Fields(TrimSpace(c.scope)))
  }

  /** Without a key id any key may be picked. */
  ghost predicate MaySelect(keys: Keys, kid: string, r: Result<Secret, TokenError>) {
    if kid != "" then r == if kid in keys then Ok(keys[kid]) else Err(KeyNotFound)
    else if keys == map[] then r == Err(KeyNotFound)
    else exists id :: id in keys && r == Ok(keys[id])
  }

  ghost predicate MaySelectFrom(loaded: Result<Keys, TokenError>, kid: string, r: Result<Secret, TokenError>) {
    match loaded
    case Err(e) => r == Err(e)
    case Ok(keys) => MaySelect(keys, kid, r)
  }

  /** The possible outcomes of verification, given the outcome of loading the keys. */
  ghost predicate MayAnswer(config: Config, codecs: Codecs, bearer: string, loaded: Result<Keys, TokenError>, now: int,
                            r: Result<Claims, TokenError>)
  {
    match Parse(codecs, bearer)
    case Err(e) => r == Err(e)
    case Ok(p) =>
      exists sel :: MaySelectFrom(loaded, p.header.kid, sel) &&
        r == match sel case Err(e) => Err(e) case Ok(secret) => Judge(config, codecs, p, secret, now)
  }

  /** Loading the keys: from the cache when it is fresh, else from the server. */
  function Loaded(cache: Cache, at: int, refresh: int, fetched: Option<Keys>): Result<Keys, TokenError> {
    match LoadedKeys(cache, at, refresh, fetched)
    case Some(keys) => Ok(keys)
    case None => Err(if fetched.None? then FetchFailed else KeyNotFound)
  }

  /** The cache is touched only for tokens that can be taken apart. */
  function CacheAfterVerify(codecs: Codecs, bearer: string, cache: Cache, at: int, refresh: int, fetched: Option<Keys>,
                            later: int): Cache
  {
    if Parse(codecs, bearer).Ok? then CacheAfter(cache, at, refresh, fetched, later) else cache
  }

  function BytesIn(r: Result<array<bv8>, TokenError>): Result<Secret, TokenError>
    reads if r.Ok? then {r.value} else {}
  {
    match r case Err(e) => Err(e) case Ok(a) => Ok(a[..])
  }

  method PickSecret(keys: JwksHeap.KeyMap, kid: string) returns (r: Result<array<bv8>, TokenError>)
    ensures MaySelect(keys.Contents(), kid, BytesIn(r))
  {
    ghost var contents := keys.Contents();
    if kid != "" {
      if kid in keys.entries {
        return Ok(keys.entries[kid]);
      }
      return Err(KeyNotFound);
    }
    if keys.entries == map[] {
      return Err(KeyNotFound);
    }
    var id :| id in keys.entries;
    assert id in contents && contents[id] == keys.entries[id][..];
    r := Ok(keys.entries[id]);
  }

  method SelectSecret(v: JwksHeap.Verifier, codecs: Codecs, kid: string, at: int, fetched: Option<seq<JwksHeap.Jwk>>,
                      later: int)
    returns (r: Result<array<bv8>, TokenError>)
    requires v.Valid()
    modifies v
    ensures v.Valid() && fresh(v.Footprint() - old(v.Footprint()))
    ensures var keys := JwksHeap.FetchedKeys(fetched, codecs.decode);
            && v.Cached() == CacheAfter(old(v.Cached()), at, v.refresh, keys, later)
            && MaySelectFrom(Loaded(old(v.Cached()), at, v.refresh, keys), kid, BytesIn(r))
  {
    hide JwksHeap.KeysOf, MaySelect, LoadedKeys, CacheAfter;
    hide JwksHeap.KeyMap.Contents, JwksHeap.Verifier.Cached;
    var keys := v.LoadJwksKeys(at, fetched, later, codecs.decode);
    if keys == null {
      return Err(if fetched.None? then FetchFailed else KeyNotFound);
    }
    r := PickSecret(keys, kid);
  }

  /** The chain of checks before any key is needed. */
  method TakeApart(codecs: Codecs, bearer: string) returns (r: Result<Parsed, TokenError>)
    ensures r == Parse(codecs, bearer)
  {
    hide TokenOf, EqualFold;
    var token := TokenOf(bearer);
    if token == "" {
      return Err(MissingBearer);
    }
    var parts := Split(token, '.');
    if |parts| != 3 {
      return Err(MalformedJwt);
    }
    var headerBytes := codecs.decode(parts[0]);
    if headerBytes.None? {
      return Err(MalformedJwt);
    }
    var payloadBytes := codecs.decode(parts[1]);
    if payloadBytes.None? {
      return Err(MalformedJwt);
    }
    var signature := codecs.decode(parts[2]);
    if signature.None? {
      return Err(MalformedJwt);
    }
    var header := codecs.header(headerBytes.value);
    if header.None? {
      return Err(MalformedJwt);
    }
    if !EqualFold(header.value.alg, "HS256") {
      return Err(InvalidAlg);
    }
    var claims := codecs.claims(payloadBytes.value);
    if claims.None? {
      return Err(MalformedJwt);
    }
    r := Ok(Parsed(header.value, claims.value, signature.value, parts[0] + "." + parts[1]));
  }

  method VerifyBearer(v: JwksHeap.Verifier, config: Config, codecs: Codecs, bearer: string,
                      at: int, fetched: Option<seq<JwksHeap.Jwk>>, later: int, now: int)
    returns (r: Result<Claims, TokenError>)
    requires v.Valid()
    modifies v
    ensures v.Valid() && fresh(v.Footprint() - old(v.Footprint()))
    ensures var keys := JwksHeap.FetchedKeys(fetched, codecs.decode);
            && v.Cached() == CacheAfterVerify(codecs, bearer, old(v.Cached()), at, v.refresh, keys, later)
            && MayAnswer(config, codecs, bearer, Loaded(old(v.Cached()), at, v.refresh, keys), now, r)
  {
    hide Judge, JwksHeap.FetchedKeys, Parse, MaySelectFrom, Loaded, CacheAfter;
    var parsed := TakeApart(codecs, bearer);
    if parsed.Err? {
      return Err(parsed.error);
    }
    var secret := SelectSecret(v, codecs, parsed.value.header.kid, at, fetched, later);
    if secret.Err? {
      return Err(secret.error);
    }
    r := Judge(config, codecs, parsed.value, secret.value[..], now);
  }

  // ---------- What is accepted ----------

  /** A token that names a key may be checked with that key only, any other token with any key. */
  predicate MayUse(keys: Keys, kid: string, id: string) {
    id in keys && (kid != "" ==> id == kid)
  }

  /** Some key the token may be checked with signs it. */
  ghost predicate Signed(codecs: Codecs, keys: Keys, p: Parsed) {
    exists id :: MayUse(keys, p.header.kid, id) && codecs.mac(keys[id], p.signed) == p.signature
  }

  /** The token's claims suit this server at this moment: no issuer is asked for or it is the token's, no audience is
      asked for or it is the token's or among the token's, and the token has not expired. */
  predicate Suits(config: Config, c: TokenClaims, now: int) {
    var want := TrimSpace(config.audience);
    && (TrimSpace(config.issuer) != "" ==> c.iss == config.issuer)
    && (want != "" ==> c.aud == Str(want) || (c.aud.List? && Str(want) in c.aud.items))
    && (c.exp > 0 ==> now < c.exp)
  }

  /** The claims handed on are the token's own: its subject, its client or else its subject, and its scopes. */
  predicate Conveys(c: TokenClaims, claims: Claims) {
    && claims.subject == c.sub
    && (if c.clientId != "" then claims.client == c.clientId else claims.client == c.sub)
    && claims.scopes == Fields(c.scope)
  }

  /** A token in three decodable parts whose algorithm is HS256, in any letter case; surrounding whitespace and the word
      "Bearer" in front of it do not matter. */
  ghost predicate WellFormed(codecs: Codecs, bearer: string, p: Parsed) {
    var t := TrimSpace(bearer);
    var parts := Split(TrimSpace(if "Bearer " <= t then t[7..] else t), '.');
    && |parts| == 3
    && codecs.decode(parts[0]).Some? && codecs.decode(parts[1]).Some? && codecs.decode(parts[2]) == Some(p.signature)
    && codecs.header(codecs.decode(parts[0]).value) == Some(p.header) && ToLower(p.header.alg) == "hs256"
    && codecs.claims(codecs.decode(parts[1]).value) == Some(p.claims)
    && p.signed == parts[0] + "." + parts[1]
  }

  lemma TokenText(bearer: string)
    ensures var t := TrimSpace(bearer); TokenOf(bearer) == TrimSpace(if "Bearer " <= t then t[7..] else t)
  {
    hide TrimSpace;
  }

  lemma HS256()
    ensures ToLower("HS256") == "hs256"
  {
  }

  lemma ParsedExactly(codecs: Codecs, bearer: string, p: Parsed)
    ensures Parse(codecs, bearer) == Ok(p) <==> WellFormed(codecs, bearer, p)
  {
    hide ToLower, TokenOf, TrimSpace;
    TokenText(bearer);
    HS256();
    if TokenOf(bearer) == "" {
      assert Split("", '.') == [""];
    }
  }

  /** A server with these keys and this configuration should accept the token at this moment, with these claims. */
  ghost predicate Good(config: Config, codecs: Codecs, bearer: string, keys: Keys, now: int, claims: Claims) {
    exists p :: && WellFormed(codecs, bearer, p) && Signed(codecs, keys, p) && Suits(config, p.claims, now)
                && Conveys(p.claims, claims)
  }

  lemma JudgedOk(config: Config, codecs: Codecs, p: Parsed, secret: Secret, now: int, claims: Claims)
    ensures Judge(config, codecs, p, secret, now) == Ok(claims) <==>
            codecs.mac(secret, p.signed) == p.signature && Suits(config, p.claims, now) && Conveys(p.claims, claims)
  {
    hide TrimSpace;
    FieldsTrimmed(p.claims.scope);
    hide Fields;
  }

  /** A token can be accepted exactly when it is well formed, signed by a key it may use, and its claims suit the
      server; the claims handed on are the token's. */
  lemma AcceptedExactly(config: Config, codecs: Codecs, bearer: string, keys: Keys, now: int, claims: Claims)
    ensures MayAnswer(config, codecs, bearer, Ok(keys), now, Ok(claims)) <==>
            Good(config, codecs, bearer, keys, now, claims)
  {
    hide WellFormed, Suits, Conveys, Judge, Parse, MayAnswer, MayUse;
    forall p ensures Parse(codecs, bearer) == Ok(p) <==> WellFormed(codecs, bearer, p) {
      ParsedExactly(codecs, bearer, p);
    }
    if Parse(codecs, bearer).Ok? {
      var p := Parse(codecs, bearer).value;
      AnswersByKey(config, codecs, bearer, keys, now, p, Ok(claims));
      forall id | MayUse(keys, p.header.kid, id)
        ensures id in keys
        ensures Judge(config, codecs, p, keys[id], now) == Ok(claims) <==>
          codecs.mac(keys[id], p.signed) == p.signature && Suits(config, p.claims, now) && Conveys(p.claims, claims)
      {
        assert id in keys by { UsedIsThere(keys, p.header.kid, id); }
        JudgedOk(config, codecs, p, keys[id], now, claims);
      }
    } else {
      NotParsed(config, codecs, bearer, Ok(keys), now, claims);
    }
  }

  lemma UsedIsThere(keys: Keys, kid: string, id: string)
    requires MayUse(keys, kid, id)
    ensures id in keys
  {
  }

  lemma NotParsed(config: Config, codecs: Codecs, bearer: string, loaded: Result<Keys, TokenError>, now: int,
                  claims: Claims)
    requires Parse(codecs, bearer).Err?
    ensures !MayAnswer(config, codecs, bearer, loaded, now, Ok(claims))
  {
    hide Parse;
  }

  /** With keys at hand the answers to a token are those of the keys it may be checked with, or that there is no such
      key. */
  lemma AnswersByKey(config: Config, codecs: Codecs, bearer: string, keys: Keys, now: int, p: Parsed,
                     r: Result<Claims, TokenError>)
    requires Parse(codecs, bearer) == Ok(p)
    ensures MayAnswer(config, codecs, bearer, Ok(keys), now, r) <==>
      || (r == Err(KeyNotFound) && (if p.header.kid != "" then p.header.kid !in keys else keys == map[]))
      || exists id :: MayUse(keys, p.header.kid, id) && r == Judge(config, codecs, p, keys[id], now)
  {
    hide Parse, Judge;
    if id :| MayUse(keys, p.header.kid, id) && r == Judge(config, codecs, p, keys[id], now) {
      assert MaySelectFrom(Ok(keys), p.header.kid, Ok(keys[id]));
    }
    if MayAnswer(config, codecs, bearer, Ok(keys), now, r) {
      var sel :| MaySelectFrom(Ok(keys), p.header.kid, sel) &&
        r == match sel case Err(e) => Err(e) case Ok(secret) => Judge(config, codecs, p, secret, now);
      if sel.Ok? {
        var id :| MayUse(keys, p.header.kid, id) && sel == Ok(keys[id]);
      }
    }
    if r == Err(KeyNotFound) && (if p.header.kid != "" then p.header.kid !in keys else keys == map[]) {
      assert MaySelectFrom(Ok(keys), p.header.kid, Err(KeyNotFound));
    }
  }

  // ---------- What is refused, and why ----------

  /** Why a well-formed token is turned down by one secret: the first of the checks it fails. */
  predicate Refuses(config: Config, codecs: Codecs, p: Parsed, secret: Secret, now: int, e: TokenError) {
    var want := TrimSpace(config.audience);
    var signed := codecs.mac(secret, p.signed) == p.signature;
    var issued := TrimSpace(config.issuer) != "" ==> p.claims.iss == config.issuer;
    var meant := want != "" ==> p.claims.aud == Str(want) || (p.claims.aud.List? && Str(want) in p.claims.aud.items);
    match e
    case InvalidSig => !signed
    case IssuerMismatch => signed && !issued
    case AudienceMissing => signed && issued && !meant
    case TokenExpired => signed && issued && meant && 0 < p.claims.exp <= now
    case _ => false
  }

  /** With keys at hand a well-formed token is refused exactly for want of its key, or by a key it may be checked with,
      for the first check it fails there. */
  lemma RefusedExactly(config: Config, codecs: Codecs, bearer: string, keys: Keys, now: int, p: Parsed, e: TokenError)
    requires WellFormed(codecs, bearer, p)
    ensures MayAnswer(config, codecs, bearer, Ok(keys), now, Err(e)) <==>
      || (e == KeyNotFound && (if p.header.kid != "" then p.header.kid !in keys else keys == map[]))
      || exists id :: MayUse(keys, p.header.kid, id) && Refuses(config, codecs, p, keys[id], now, e)
  {
    hide WellFormed, Refuses, Judge, Parse, MayAnswer;
    ParsedExactly(codecs, bearer, p);
    AnswersByKey(config, codecs, bearer, keys, now, p, Err(e));
    forall id | MayUse(keys, p.header.kid, id)
      ensures Judge(config, codecs, p, keys[id], now) == Err(e) <==> Refuses(config, codecs, p, keys[id], now, e)
    {
      JudgedErr(config, codecs, p, keys[id], now, e);
    }
  }

  lemma JudgedErr(config: Config, codecs: Codecs, p: Parsed, secret: Secret, now: int, e: TokenError)
    ensures Judge(config, codecs, p, secret, now) == Err(e) <==> Refuses(config, codecs, p, secret, now, e)
  {
    hide TrimSpace, ClaimsOf;
  }

  lemma AcceptedHasKeys(config: Config, codecs: Codecs, bearer: string, loaded: Result<Keys, TokenError>, now: int,
                        claims: Claims)
    requires MayAnswer(config, codecs, bearer, loaded, now, Ok(claims))
    ensures loaded.Ok?
  {
    hide Parse, Judge;
  }

  /** With a server that rotates its keys, and calls that overlap in any way: at a moment `now` some call can obtain
      keys and accept the token exactly when the token is good for a key set that the server handed out less than the
      refresh interval plus the commit delay before. */
  lemma AcceptedInWindow(server: KeyServer, refresh: int, delay: int, now: int,
                         config: Config, codecs: Codecs, bearer: string, judged: int, claims: Claims)
    requires refresh > 0 && delay >= 0
    ensures (exists keys :: CanObtain(server, refresh, delay, now, keys) &&
                            MayAnswer(config, codecs, bearer, Ok(keys), judged, Ok(claims))) <==>
            (exists keys :: ServedBetween(server, keys, now - refresh - delay + 1, now) &&
                            Good(config, codecs, bearer, keys, judged, claims))
  {
    hide MayAnswer, Good, CanObtain, ServedBetween;
    forall keys
      ensures MayAnswer(config, codecs, bearer, Ok(keys), judged, Ok(claims)) <==>
              Good(config, codecs, bearer, keys, judged, claims)
      ensures Good(config, codecs, bearer, keys, judged, claims) ==> keys != map[]
      ensures CanObtain(server, refresh, delay, now, keys) <==>
              keys != map[] && ServedBetween(server, keys, now - refresh - delay + 1, now)
    {
      AcceptedExactly(config, codecs, bearer, keys, judged, claims);
      NoKeysNoToken(config, codecs, bearer, judged, claims);
      ObtainableExactly(server, refresh, delay, now, keys);
    }
  }

  lemma NoKeysNoToken(config: Config, codecs: Codecs, bearer: string, now: int, claims: Claims)
    ensures !Good(config, codecs, bearer, map[], now, claims)
  {
    hide WellFormed, Suits;
  }

  /** While the server's key set stays the same, verification has the same possible outcomes from every reachable state
      of the cache as it has with no cache at all. */
  lemma CachedRefinesUncached(server: KeyServer, refresh: int, delay: int, s: State, steps: seq<Step>, mid: State,
                              keys: Keys, config: Config, codecs: Codecs, bearer: string, now: int,
                              r: Result<Claims, TokenError>)
    requires Start(s) && Run(server, refresh, delay, s, steps, mid)
    requires forall u :: server(u) == Some(keys)
    ensures MayAnswer(config, codecs, bearer, Loaded(mid.cache, mid.now, refresh, server(mid.now)), now, r) <==>
            MayAnswer(config, codecs, bearer, Loaded(Cache.Empty, mid.now, refresh, server(mid.now)), now, r)
  {
    hide MayAnswer;
    RunKeepsInvariant(server, refresh, delay, s, steps, mid);
    ConstantServer(server, refresh, delay, s, steps, mid, keys);
  }

  /** When fetches fail, the cached verifier either says so or answers as it would with the server's keys. */
  lemma FailedFetchIsSafe(server: KeyServer, refresh: int, delay: int, s: State, steps: seq<Step>, mid: State,
                          keys: Keys, config: Config, codecs: Codecs, bearer: string, now: int,
                          r: Result<Claims, TokenError>)
    requires Start(s) && Run(server, refresh, delay, s, steps, mid)
    requires forall u :: server(u).Some? ==> server(u).value == keys
    requires MayAnswer(config, codecs, bearer, Loaded(mid.cache, mid.now, refresh, None), now, r)
    ensures r == Err(FetchFailed) || MayAnswer(config, codecs, bearer, Ok(keys), now, r)
  {
    hide Parse, MaySelect, Judge;
    ConstantServer(server, refresh, delay, s, steps, mid, keys);
  }
}
