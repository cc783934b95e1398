/** `AuthService.getTokensData`: the access and refresh tokens minted for a
    session. Tokens are records of what is signed (claims, secret, expiry);
    the signature itself is not modelled. */
module Tokens {
  import opened Wrappers
  import opened Exceptions
  import opened Users

  /** A configured duration: the text as configured (such as "15m"), which is
      handed to the JWT library, and its length in milliseconds as `ms()`
      parses it. */
  datatype Duration = Duration(text: string, millis: int)

  /** The `auth.*` configuration; a key that is not set is `None`. */
  datatype AuthConfig = AuthConfig(
    secret: Option<string>,          // auth.secret
    expires: Option<Duration>,       // auth.expires
    refreshSecret: Option<string>,   // auth.refreshSecret
    refreshExpires: Option<string>)  // auth.refreshExpires

  /** The payloads that are signed: the access payload `{id, role, sessionId}`
      and the refresh payload `{sessionId}`. */
  datatype Claims =
    | AccessClaims(id: int, role: Option<Role>, sessionId: int)
    | RefreshClaims(sessionId: int)

  datatype Token = Token(claims: Claims, secret: string, expiresIn: string)

  /** `{token, refreshToken, tokenExpires}`. */
  datatype TokensData = TokensData(token: Token, refreshToken: Token, tokenExpires: int)

  /** The first key `getOrThrow` fails on, in the order `getTokensData` reads
      them, or None when all four are set. */
  function MissingKey(config: AuthConfig): (key: Option<string>)
    ensures key.None? <==>
              config.expires.Some? && config.secret.Some? && config.refreshSecret.Some? && config.refreshExpires.Some?
  {
    if config.expires.None? then Some("auth.expires")
    else if config.secret.None? then Some("auth.secret")
    else if config.refreshSecret.None? then Some("auth.refreshSecret")
    else if config.refreshExpires.None? then Some("auth.refreshExpires")
    else None
  }

  /** The tokens for user `id` with `role` in session `sessionId`, at
      wall-clock time `now` (ms). The access token is signed with the access
      secret and duration, the refresh token with the refresh secret and
      duration; `tokenExpires` is an absolute time. */
  function GetTokensData(config: AuthConfig, id: int, role: Option<Role>, sessionId: int, now: int): (r: Result<TokensData, Thrown>)
    ensures r.Failure? <==> MissingKey(config).Some?
    ensures r.Failure? ==> r.error == RuntimeError(ConfigKeyMissing(MissingKey(config).value))
    ensures r.Success? ==>
              && r.value.token.claims == AccessClaims(id, role, sessionId)
              && r.value.token.secret == config.secret.value
              && r.value.token.expiresIn == config.expires.value.text
    ensures r.Success? ==>
              && r.value.refreshToken.claims == RefreshClaims(sessionId)
              && r.value.refreshToken.secret == config.refreshSecret.value
              && r.value.refreshToken.expiresIn == config.refreshExpires.value
    ensures r.Success? ==> r.value.tokenExpires == now + config.expires.value.millis
  {
    match config.expires
    case None => Failure(RuntimeError(ConfigKeyMissing("auth.expires")))
    case Some(tokenExpiresIn) =>
      var tokenExpires := now + tokenExpiresIn.millis;
      match config.secret
      case None => Failure(RuntimeError(ConfigKeyMissing("auth.secret")))
      case Some(secret) =>
        var token := Token(AccessClaims(id, role, sessionId), secret, tokenExpiresIn.text);
        match config.refreshSecret
        case None => Failure(RuntimeError(ConfigKeyMissing("auth.refreshSecret")))
        case Some(refreshSecret) =>
          match config.refreshExpires
          case None => Failure(RuntimeError(ConfigKeyMissing("auth.refreshExpires")))
          case Some(refreshExpires) =>
            var refreshToken := Token(RefreshClaims(sessionId), refreshSecret, refreshExpires);
            Success(TokensData(token, refreshToken, tokenExpires))
  }

  /** `tokenExpires` depends on the access duration only: changing the
      refresh duration or either secret leaves it as it was. */
  lemma TokenExpiresIgnoresRefreshSettings(config: AuthConfig, other: AuthConfig, id: int, role: Option<Role>, sessionId: int, now: int)
    requires MissingKey(config).None? && MissingKey(other).None?
    requires other.expires == config.expires
    ensures GetTokensData(other, id, role, sessionId, now).value.tokenExpires
         == GetTokensData(config, id, role, sessionId, now).value.tokenExpires
  {
  }

  /** Minting later gives a strictly later `tokenExpires` and otherwise the
      same tokens. */
  lemma LaterTokensExpireLater(config: AuthConfig, id: int, role: Option<Role>, sessionId: int, now: int, later: int)
    requires MissingKey(config).None?
    requires now < later
    ensures var early, late := GetTokensData(config, id, role, sessionId, now).value,
                               GetTokensData(config, id, role, sessionId, later).value;
      && early.tokenExpires < late.tokenExpires
      && early.token == late.token && early.refreshToken == late.refreshToken
  {
  }
}
