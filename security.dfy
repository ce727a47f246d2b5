/** Password hashing and access tokens (backend/app/core/security.py).

    The hashing library (bcrypt through passlib) and the token library
    (python-jose) are not modelled: each is a record of functions passed in
    by the caller, and the one property the model relies on for each is a
    predicate stated here (`AcceptsOwnHashes`, `DecodeContract`) that the
    lemmas take as a hypothesis. */
module Security {
  import opened Common

  /** bcrypt only looks at the first 72 elements of its input. */
  const BcryptMaxInput: nat := 72

  /** The random salt bcrypt draws for each new hash. */
  type Salt = nat

  /** The bcrypt primitive: `hash` draws a salt and returns the encoded
      hash string; `verify` checks a password against such a string. */
  datatype Bcrypt = Bcrypt(hash: (string, Salt) -> string, verify: (string, string) -> bool)

  /** The only fact about bcrypt the model uses: it accepts its own hashes. */
  ghost predicate AcceptsOwnHashes(b: Bcrypt)
  {
    forall p, s :: b.verify(p, b.hash(p, s))
  }

  /** Bcrypt accepts no hash of a different password. Used only by the
      first-run scenario in the Auth module, to show an old password stops
      working after a change. */
  ghost predicate RejectsOtherPasswords(b: Bcrypt)
  {
    forall p, q, s :: p != q ==> !b.verify(p, b.hash(q, s))
  }

  /** `password[:72]`: Python slices strings by characters, not bytes. */
  function Truncate(password: string): (r: string)
    ensures |r| == if |password| <= BcryptMaxInput then |password| else BcryptMaxInput
    ensures r <= password
  {
    if |password| <= BcryptMaxInput then password else password[..BcryptMaxInput]
  }

  /** `get_password_hash`: bcrypt sees the password itself when it is at
      most 72 characters long, and its first 72 characters otherwise. */
  function GetPasswordHash(b: Bcrypt, password: string, salt: Salt): (h: string)
    ensures |password| <= BcryptMaxInput ==> h == b.hash(password, salt)
    ensures |password| > BcryptMaxInput ==> h == b.hash(password[..BcryptMaxInput], salt)
  {
    b.hash(Truncate(password), salt)
  }

  /** `verify_password`: the candidate is cut exactly as `get_password_hash`
      cuts it. */
  function VerifyPassword(b: Bcrypt, plain: string, hashed: string): (ok: bool)
    ensures |plain| <= BcryptMaxInput ==> ok == b.verify(plain, hashed)
    ensures |plain| > BcryptMaxInput ==> ok == b.verify(plain[..BcryptMaxInput], hashed)
  {
    b.verify(Truncate(plain), hashed)
  }

  /** Two passwords give bcrypt the same input exactly when they are equal
      or share their first 72 characters. */
  lemma {:induction false} TruncateEquivalence(p: string, q: string)
    ensures Truncate(p) == Truncate(q) <==>
            p == q || (|p| >= BcryptMaxInput && |q| >= BcryptMaxInput && p[..BcryptMaxInput] == q[..BcryptMaxInput])
  {
    if Truncate(p) == Truncate(q) && p != q {
      if |p| <= BcryptMaxInput {
        assert |p| == |Truncate(p)| == |Truncate(q)| == BcryptMaxInput;
        assert p == Truncate(q) == q[..BcryptMaxInput];
      } else if |q| <= BcryptMaxInput {
        assert |q| == |Truncate(q)| == |Truncate(p)| == BcryptMaxInput;
        assert q == Truncate(p) == p[..BcryptMaxInput];
      }
    }
  }

  /** A password of at most 72 characters reaches bcrypt unchanged. */
  lemma ShortPasswordUnchanged(b: Bcrypt, password: string, salt: Salt)
    requires |password| <= BcryptMaxInput
    ensures GetPasswordHash(b, password, salt) == b.hash(password, salt)
  {
  }

  /** Passwords sharing their first 72 characters are interchangeable, both
      when hashing and when verifying. */
  lemma SamePrefixSameHash(b: Bcrypt, p: string, q: string, salt: Salt, hashed: string)
    requires |p| >= BcryptMaxInput && |q| >= BcryptMaxInput
    requires p[..BcryptMaxInput] == q[..BcryptMaxInput]
    ensures GetPasswordHash(b, p, salt) == GetPasswordHash(b, q, salt)
    ensures VerifyPassword(b, p, hashed) == VerifyPassword(b, q, hashed)
  {
    TruncateEquivalence(p, q);
  }

  /** Verification truncates the candidate exactly as hashing does, so a
      password of any length, also longer than 72, verifies against its hash. */
  lemma VerifyAcceptsOwnHash(b: Bcrypt, password: string, salt: Salt)
    requires AcceptsOwnHashes(b)
    ensures VerifyPassword(b, password, GetPasswordHash(b, password, salt))
  {
  }

  // ---------------------------------------------------------------- tokens

  /** A token's claim set. */
  type Claims = map<string, Value>

  /** The settings security.py reads: signing secret, algorithm and the
      default lifetime of a token in minutes. */
  datatype Settings = Settings(jwtSecret: string, jwtAlgorithm: string, accessTokenExpireMinutes: int)

  /** A `JWTError` (bad signature, malformed token, expired `exp`, ...). */
  datatype JwtError = JwtError(reason: string)

  /** python-jose: `encode(claims, key, algorithm)` and
      `decode(token, key, algorithm, now)`; `now` is the clock jose reads to
      check `exp`. */
  datatype Jose = Jose(encode: (Claims, string, string) -> string,
                       decode: (string, string, string, int) -> Result<Claims, JwtError>)

  /** How jose serialises a `datetime` expiry: as an integer timestamp. */
  function OnTheWire(c: Claims): (w: Claims)
    ensures w.Keys == c.Keys
    ensures forall k :: k in c && k != "exp" ==> w[k] == c[k]
    ensures "exp" in c && c["exp"].Time? ==> w["exp"] == Int(c["exp"].t)
  {
    if "exp" in c && c["exp"].Time? then c["exp" := Int(c["exp"].t)] else c
  }

  /** A value the JSON encoder accepts: no `datetime` and no ObjectId,
      at any depth. */
  predicate IsJson(v: Value)
  {
    match v
    case Time(_) => false
    case Oid(_) => false
    case List(items) => forall i :: 0 <= i < |items| ==> IsJson(items[i])
    case Object(fields) => forall k :: k in fields ==> IsJson(fields[k])
    case _ => true
  }

  /** The registered claims other than `exp` that jose checks when decoding
      (sections 4.1.1 to 4.1.7 of RFC 7519, and OpenID Connect's `at_hash`). */
  const CheckedClaims: set<string> := {"iat", "nbf", "aud", "iss", "sub", "jti", "at_hash"}

  /** Claims jose signs and gives back unchanged: every value is JSON (an
      `exp` is replaced before signing) and no key is a checked claim. */
  predicate Signable(data: Claims)
  {
    forall k :: k in data ==> k !in CheckedClaims && (k == "exp" || IsJson(data[k]))
  }

  /** The only fact about jose the model uses: a claim set of `Signable`
      data plus a `datetime` `exp` decodes, with the key and algorithm it was
      encoded with, to those claims while `exp` (section 4.1.4 of RFC 7519)
      has not passed, and fails afterwards. */
  ghost predicate DecodeContract(j: Jose)
  {
    forall c: Claims, key: string, alg: string, now: int ::
      Signable(c) && "exp" in c && c["exp"].Time? ==>
        j.decode(j.encode(c, key, alg), key, alg, now) ==
          if now <= c["exp"].t then Ok(OnTheWire(c)) else Err(JwtError("Signature has expired."))
  }

  /** The expiry of a new token. `timedelta(0)` is falsy in Python, so a
      zero delta takes the default lifetime just as an absent one does.
      Instants and deltas are in seconds. */
  function ExpiryOf(settings: Settings, expiresDelta: Option<int>, now: int): (exp: int)
    ensures expiresDelta.Some? && expiresDelta.value != 0 ==> exp == now + expiresDelta.value
    ensures expiresDelta.None? || expiresDelta.value == 0 ==> exp == now + 60 * settings.accessTokenExpireMinutes
  {
    if expiresDelta.Some? && expiresDelta.value != 0 then now + expiresDelta.value
    else now + 60 * settings.accessTokenExpireMinutes
  }

  /** The claims that are signed: a copy of `data` with `exp` added, or
      overwritten when `data` already has one. `data` itself is a value and
      is not changed. */
  function AccessClaims(settings: Settings, data: Claims, expiresDelta: Option<int>, now: int): (c: Claims)
    ensures c.Keys == data.Keys + {"exp"}
    ensures c["exp"] == Time(ExpiryOf(settings, expiresDelta, now))
    ensures forall k :: k in data && k != "exp" ==> c[k] == data[k]
  {
    data["exp" := Time(ExpiryOf(settings, expiresDelta, now))]
  }

  /** `create_access_token`: signs with the configured secret and algorithm
      only; no argument can choose either. Decoded with that secret and
      algorithm at any instant, the token gives `data` plus its integer
      `exp` until `exp` and the expiry error afterwards. */
  function CreateAccessToken(settings: Settings, jose: Jose, data: Claims, expiresDelta: Option<int>, now: int): (t: string)
    ensures DecodeContract(jose) && Signable(data) ==>
      var exp := ExpiryOf(settings, expiresDelta, now);
      forall later :: jose.decode(t, settings.jwtSecret, settings.jwtAlgorithm, later) ==
        if later <= exp then Ok(data["exp" := Int(exp)]) else Err(JwtError("Signature has expired."))
  {
    var c := AccessClaims(settings, data, expiresDelta, now);
    assert Signable(data) ==> Signable(c);
    assert OnTheWire(c) == data["exp" := Int(ExpiryOf(settings, expiresDelta, now))];
    jose.encode(c, settings.jwtSecret, settings.jwtAlgorithm)
  }

  /** `verify_token`: any decoding error becomes `None`. */
  function VerifyToken(settings: Settings, jose: Jose, token: string, now: int): (r: Option<Claims>)
    ensures r.None? <==> jose.decode(token, settings.jwtSecret, settings.jwtAlgorithm, now).Err?
    ensures r.Some? ==> jose.decode(token, settings.jwtSecret, settings.jwtAlgorithm, now) == Ok(r.value)
  {
    match jose.decode(token, settings.jwtSecret, settings.jwtAlgorithm, now)
    case Ok(payload) => Some(payload)
    case Err(_) => None
  }

  /** A token verifies, under the same settings, to `data` plus its integer
      `exp` until that instant, and to `None` after it. */
  lemma TokenRoundTrip(settings: Settings, jose: Jose, data: Claims, expiresDelta: Option<int>, issuedAt: int, now: int)
    requires DecodeContract(jose)
    requires Signable(data)
    ensures var exp := ExpiryOf(settings, expiresDelta, issuedAt);
            VerifyToken(settings, jose, CreateAccessToken(settings, jose, data, expiresDelta, issuedAt), now) ==
              if now <= exp then Some(data["exp" := Int(exp)]) else None
  {
  }
}
