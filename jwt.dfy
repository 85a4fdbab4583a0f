/**
 * The part of the `jsonwebtoken` library that the JWT helper relies on:
 * its algorithms, the default header, validation settings and error kinds.
 * Encoding and decoding are cryptography and enter the model as functions
 * passed in.
 */
module JsonWebToken {

  datatype Algorithm = HS256 | HS384 | HS512 | ES256 | ES384 | RS256 | RS384 | RS512 | PS256 | PS384 | PS512 | EdDSA

  function Name(a: Algorithm): string {
    match a
    case HS256 => "HS256"
    case HS384 => "HS384"
    case HS512 => "HS512"
    case ES256 => "ES256"
    case ES384 => "ES384"
    case RS256 => "RS256"
    case RS384 => "RS384"
    case RS512 => "RS512"
    case PS256 => "PS256"
    case PS384 => "PS384"
    case PS512 => "PS512"
    case EdDSA => "EdDSA"
  }

  datatype Header = Header(alg: Algorithm)

  /** `Header::default()`, whose algorithm is HS256. */
  function DefaultHeader(): Header {
    Header(HS256)
  }

  /** `Validation::new(alg)`: accept tokens signed with that one algorithm. */
  datatype Validation = Validation(algorithms: seq<Algorithm>)

  function NewValidation(alg: Algorithm): Validation {
    Validation([alg])
  }

  datatype ErrorKind =
    InvalidToken | InvalidSignature | InvalidIssuer | InvalidAudience | ExpiredSignature | InvalidAlgorithm | OtherKind

  datatype Error = Error(kind: ErrorKind)
}

/**
 * The JWT helper of the web API: the algorithm choice, token creation and
 * validation with their error mapping, and the expiry time arithmetic.
 */
module Jwt {
  import opened Wrappers
  import JsonWebToken

  /** The service's own list of algorithms. */
  datatype JwtAlgorithm = HS256 | HS384 | HS512 | RS256 | RS384 | RS512 | ES256 | ES384 | ES512

  function Name(a: JwtAlgorithm): string {
    match a
    case HS256 => "HS256"
    case HS384 => "HS384"
    case HS512 => "HS512"
    case RS256 => "RS256"
    case RS384 => "RS384"
    case RS512 => "RS512"
    case ES256 => "ES256"
    case ES384 => "ES384"
    case ES512 => "ES512"
  }

  /** `From<JwtAlgorithm> for Algorithm`: the same-named library algorithm; ES512 has none and panics (`None`). */
  function ToAlgorithm(a: JwtAlgorithm): (r: Option<JsonWebToken.Algorithm>)
    ensures r.None? <==> a == ES512
    ensures r.Some? ==> JsonWebToken.Name(r.value) == Name(a)
  {
    match a
    case HS256 => Some(JsonWebToken.HS256)
    case HS384 => Some(JsonWebToken.HS384)
    case HS512 => Some(JsonWebToken.HS512)
    case RS256 => Some(JsonWebToken.RS256)
    case RS384 => Some(JsonWebToken.RS384)
    case RS512 => Some(JsonWebToken.RS512)
    case ES256 => Some(JsonWebToken.ES256)
    case ES384 => Some(JsonWebToken.ES384)
    case ES512 => None
  }

  /** Distinct algorithms map to distinct library algorithms. */
  lemma ToAlgorithmInjective(a: JwtAlgorithm, b: JwtAlgorithm)
    requires ToAlgorithm(a).Some? && ToAlgorithm(a) == ToAlgorithm(b)
    ensures a == b
  {
    assert Name(a) == JsonWebToken.Name(ToAlgorithm(a).value) == Name(b);
  }

  datatype JwtConfig = JwtConfig(secret: string, algorithm: JsonWebToken.Algorithm)

  datatype Claims = Claims(unxid: string, exp: nat, twitchAccessToken: string, twitchId: string)

  datatype TokenData = TokenData(header: JsonWebToken.Header, claims: Claims)

  datatype JwtError =
    | TokenCreationError(cause: JsonWebToken.Error)
    | TokenValidationError(cause: JsonWebToken.Error)
    | ConfigurationError(message: string)

  /** `JwtConfig::new`: the secret comes from `JWT_SECRET`; without it the call panics (`None`). */
  function NewConfig(env: map<string, string>, algorithm: JsonWebToken.Algorithm): (r: Option<JwtConfig>)
    ensures r.None? <==> "JWT_SECRET" !in env
    ensures r.Some? ==> r.value.secret == env["JWT_SECRET"] && r.value.algorithm == algorithm
  {
    if "JWT_SECRET" in env then Some(JwtConfig(env["JWT_SECRET"], algorithm)) else None
  }

  /** `generate_token`: encode with the default header and the secret; a failure becomes `TokenCreationError`. */
  function GenerateToken(config: JwtConfig, claims: Claims,
                         encode: (JsonWebToken.Header, Claims, string) -> Result<string, JsonWebToken.Error>)
    : (r: Result<string, JwtError>)
    ensures var lib := encode(JsonWebToken.Header(JsonWebToken.HS256), claims, config.secret);
            && (r.Ok? <==> lib.Ok?)
            && (r.Ok? ==> r.value == lib.value)
            && (r.Err? ==> r.error == TokenCreationError(lib.error))
  {
    match encode(JsonWebToken.DefaultHeader(), claims, config.secret)
    case Ok(token) => Ok(token)
    case Err(e) => Err(TokenCreationError(e))
  }

  /** Token creation does not depend on the configured algorithm. */
  lemma GenerateTokenIgnoresAlgorithm(config: JwtConfig, algorithm: JsonWebToken.Algorithm, claims: Claims,
                                      encode: (JsonWebToken.Header, Claims, string) -> Result<string, JsonWebToken.Error>)
    ensures GenerateToken(config.(algorithm := algorithm), claims, encode) == GenerateToken(config, claims, encode)
  {
  }

  /**
   * `validate_token`: decode with the secret and a validation for the
   * configured algorithm; the decoded data is returned unchanged, and every
   * kind of failure becomes `TokenValidationError` with the library error.
   */
  function ValidateToken(config: JwtConfig, token: string,
                         decode: (string, string, JsonWebToken.Validation) -> Result<TokenData, JsonWebToken.Error>)
    : (r: Result<TokenData, JwtError>)
    ensures var lib := decode(token, config.secret, JsonWebToken.Validation([config.algorithm]));
            && (r.Ok? <==> lib.Ok?)
            && (r.Ok? ==> r.value == lib.value)
            && (r.Err? ==> r.error == TokenValidationError(lib.error))
  {
    match decode(token, config.secret, JsonWebToken.NewValidation(config.algorithm))
    case Ok(data) => Ok(data)
    case Err(e) =>
      match e.kind
      case InvalidToken => Err(TokenValidationError(e))
      case InvalidIssuer => Err(TokenValidationError(e))
      case InvalidAudience => Err(TokenValidationError(e))
      case ExpiredSignature => Err(TokenValidationError(e))
      case InvalidAlgorithm => Err(TokenValidationError(e))
      case _ => Err(TokenValidationError(e))
  }

  /** `usize` on a 64-bit target. */
  const UsizeModulus: int := 0x1_0000_0000_0000_0000

  /** `timestamp()` is an `i64`. */
  predicate IsI64(n: int) {
    -0x8000_0000_0000_0000 <= n < 0x8000_0000_0000_0000
  }

  /** A checked `usize` product or sum: `None` when it overflows, which panics. */
  function Checked(n: int): (r: Option<nat>)
    ensures r.Some? <==> 0 <= n < UsizeModulus
    ensures r.Some? ==> r.value == n
  {
    if 0 <= n < UsizeModulus then Some(n) else None
  }

  /**
   * `generate_exp_time(days)` at clock reading `now` (seconds since the
   * epoch): `now as usize`, which wraps a negative clock, plus
   * `days * 24 * 60 * 60`, each step checked for overflow; an overflow
   * panics (`None`).
   */
  function GenerateExpTime(days: nat, now: int): Option<nat>
    requires days < UsizeModulus && IsI64(now)
  {
    var start := now % UsizeModulus;
    match Checked(days * 24)
    case None => None
    case Some(hours) =>
      match Checked(hours * 60)
      case None => None
      case Some(minutes) =>
        match Checked(minutes * 60)
        case None => None
        case Some(seconds) => Checked(start + seconds)
  }

  /**
   * The expiry is `now + days * 86400` seconds, and the call panics exactly
   * when that, counted from the clock reinterpreted as unsigned, does not
   * fit in a `usize`.
   */
  lemma ExpTimeIsNowPlusDays(days: nat, now: int)
    requires days < UsizeModulus && IsI64(now)
    ensures var start := now % UsizeModulus;
            && (GenerateExpTime(days, now).Some? <==> start + days * 86400 < UsizeModulus)
            && (GenerateExpTime(days, now).Some? ==> GenerateExpTime(days, now).value == start + days * 86400)
            && (0 <= now ==> start == now)
  {
    var n := days * 86400;
    assert days * 24 <= n && days * 24 * 60 <= n;
    assert days * 24 * 60 * 60 == n;
  }

  /** For a clock after the epoch and a stay that fits, the expiry is exactly `now + days * 86400`. */
  lemma ExpTimeAfterEpoch(days: nat, now: int)
    requires days < UsizeModulus && IsI64(now) && 0 <= now && now + days * 86400 < UsizeModulus
    ensures GenerateExpTime(days, now) == Some(now + days * 86400)
  {
    ExpTimeIsNowPlusDays(days, now);
  }
}
