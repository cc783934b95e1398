/** `AuthService`: email/password login, "who am I", token refresh and
    logout, over the user store, the session store and the `auth.*`
    configuration. `bcrypt.compare` is the parameter `passwordMatches`,
    `Date.now()` the parameter `now`. */
module Auth {
  import opened Wrappers
  import opened JsValues
  import opened Exceptions
  import opened Users
  import opened SessionStore
  import opened Tokens
  import opened HttpExceptionFilter

  /** `AuthProvidersEnum.email`. */
  const EMAIL_PROVIDER := "email"

  datatype LoginDto = LoginDto(email: string, password: string)

  /** `{refreshToken, token, tokenExpires, user}`. */
  datatype LoginResponse = LoginResponse(refreshToken: Token, token: Token, tokenExpires: int, user: User)

  /** The checks of `validateLogin` before a session is created, in the
      source's order: unknown email, then a provider other than 'email', then
      the password comparison (which throws on a stored hash that is not a
      string, and rejects on a mismatch). */
  function Authenticate(users: UserTable, dto: LoginDto, passwordMatches: (string, string) -> bool): (r: Result<User, Thrown>)
    requires UniqueEmails(users)
    ensures (forall u :: u in users ==> u.email != Some(dto.email)) ==> r == Failure(FieldError("email", "notFound"))
    ensures forall u :: u in users && u.email == Some(dto.email) ==>
              if u.provider != EMAIL_PROVIDER then
                r == Failure(FieldError("email", "needLoginViaProvider:" + u.provider))
              else if u.password.None? then
                r == Failure(RuntimeError(IllegalHashArguments))
              else if !passwordMatches(dto.password, u.password.value) then
                r == Failure(FieldError("password", "incorrectPassword"))
              else
                r == Success(u)
  {
    match FindByEmail(users, dto.email)
    case None => Failure(FieldError("email", "notFound"))
    case Some(user) =>
      if user.provider != EMAIL_PROVIDER then
        Failure(FieldError("email", "needLoginViaProvider:" + user.provider))
      else if user.password.None? then
        Failure(RuntimeError(IllegalHashArguments))
      else if !passwordMatches(dto.password, user.password.value) then
        Failure(FieldError("password", "incorrectPassword"))
      else
        Success(user)
  }

  /** The `catch` block of `validateLogin`: an HttpException is rethrown as
      it is, anything else becomes a 500 'Internal server error'. */
  function Rethrow(e: Thrown): (r: Thrown)
    ensures r.HttpException?
    ensures e.HttpException? ==> r == e
    ensures !e.HttpException? ==> r == InternalServerError()
  {
    if e.HttpException? then e else InternalServerError()
  }

  /** A rejected login is a 422 carrying exactly one field error when the
      checks reject it, and a 500 otherwise; its envelope is
      `{success: false, code: 422, errors: {<field>: <code>}, message: <the status's name>}`
      or `{success: false, code: 500, message: 'Internal server error'}`. */
  lemma LoginRejectionEnvelope(users: UserTable, dto: LoginDto, passwordMatches: (string, string) -> bool, names: StatusNames)
    requires UniqueEmails(users)
    requires Authenticate(users, dto, passwordMatches).Failure?
    ensures var e := Rethrow(Authenticate(users, dto, passwordMatches).error);
      var env := Catch(e.status, e.response, names);
      && e.status in {UNPROCESSABLE_ENTITY, INTERNAL_SERVER_ERROR}
      && env.Success? && env.value.code == e.status
      && (e.status == UNPROCESSABLE_ENTITY ==>
            env.value.errors.Some? && env.value.errors.value.Obj? && |env.value.errors.value.fields| == 1
            && env.value.message == StatusName(names, UNPROCESSABLE_ENTITY))
      && (e.status == INTERNAL_SERVER_ERROR ==>
            env.value.errors.None? && env.value.message == Str("Internal server error"))
  {
  }

  /** The envelope of a 422 field error carries the field map and the
      status's name, and drops the body's `status` key. */
  lemma FieldErrorEnvelope(field: string, code: string, names: StatusNames)
    ensures var e := FieldError(field, code);
      Catch(e.status, e.response, names)
        == Success(Envelope(false, UNPROCESSABLE_ENTITY, Some(Obj(map[field := Str(code)])), StatusName(names, UNPROCESSABLE_ENTITY)))
  {
  }

  /** A failed refresh is rendered as `{success: false, code: 401, message: 'Unauthorized'}`. */
  lemma UnauthorizedEnvelope(names: StatusNames)
    ensures Catch(Unauthorized().status, Unauthorized().response, names)
         == Success(Envelope(false, UNAUTHORIZED, None, Str("Unauthorized")))
  {
  }

  class AuthService {
    /** The user store; the auth service never changes it. */
    const users: UserTable
    /** The `auth.*` configuration. */
    const config: AuthConfig
    /** `bcrypt.compare(plain, hash)`. */
    const passwordMatches: (string, string) -> bool
    /** The session store and the next value of its SERIAL id. */
    var sessions: SessionTable
    var nextSessionId: int

    ghost predicate Valid()
      reads this
    {
      && WellFormed(users)
      && 1 <= nextSessionId
      && forall id :: id in sessions ==> 1 <= id < nextSessionId
    }

    constructor (users: UserTable, config: AuthConfig, passwordMatches: (string, string) -> bool,
                 sessions: SessionTable, nextSessionId: int)
      requires WellFormed(users)
      requires 1 <= nextSessionId && forall id :: id in sessions ==> 1 <= id < nextSessionId
      ensures Valid()
      ensures this.users == users && this.config == config && this.passwordMatches == passwordMatches
      ensures this.sessions == sessions && this.nextSessionId == nextSessionId
    {
      this.users := users;
      this.config := config;
      this.passwordMatches := passwordMatches;
      this.sessions := sessions;
      this.nextSessionId := nextSessionId;
    }

    /** `sessionService.create({user})`: a new active session with a fresh id. */
    method CreateSession(userId: int) returns (id: int)
      requires Valid()
      modifies this
      ensures Valid()
      ensures id == old(nextSessionId) && id !in old(sessions)
      ensures sessions == old(sessions)[id := Session(userId, false)]
      ensures nextSessionId == old(nextSessionId) + 1
    {
      id := nextSessionId;
      sessions := sessions[id := Session(userId, false)];
      nextSessionId := nextSessionId + 1;
    }

    /** `validateLogin`. A rejection leaves the sessions as they were. Once
        the checks pass, exactly one new active session owned by the user is
        created, and it stays even when minting the tokens then fails. Only
        HttpExceptions escape: 422 for the checks, 500 for anything else. A
        successful login's refresh token refreshes into the same tokens. */
    method ValidateLogin(dto: LoginDto, now: int) returns (r: Result<LoginResponse, Thrown>)
      requires Valid()
      modifies this
      ensures Valid()
      ensures var auth := Authenticate(users, dto, passwordMatches);
        auth.Failure? ==>
          && r == Failure(Rethrow(auth.error))
          && sessions == old(sessions) && nextSessionId == old(nextSessionId)
      ensures var auth := Authenticate(users, dto, passwordMatches);
        auth.Success? ==>
          && nextSessionId == old(nextSessionId) + 1
          && old(nextSessionId) !in old(sessions)
          && sessions == old(sessions)[old(nextSessionId) := Session(auth.value.id, false)]
          && |sessions| == |old(sessions)| + 1
          && match GetTokensData(config, auth.value.id, auth.value.role, old(nextSessionId), now)
             case Failure(e) => r == Failure(Rethrow(e))
             case Success(t) => r == Success(LoginResponse(t.refreshToken, t.token, t.tokenExpires, auth.value))
      ensures r.Failure? ==> r.error.HttpException? && r.error.status in {UNPROCESSABLE_ENTITY, INTERNAL_SERVER_ERROR}
      ensures r.Success? ==>
                && r.value.user in users && r.value.user.email == Some(dto.email)
                && r.value.token.claims.sessionId == r.value.refreshToken.claims.sessionId
                && RefreshToken(r.value.refreshToken.claims.sessionId, now)
                     == Success(TokensData(r.value.token, r.value.refreshToken, r.value.tokenExpires))
    {
      var checked := Authenticate(users, dto, passwordMatches);
      if checked.Failure? {
        r := Failure(Rethrow(checked.error));
        return;
      }
      var user := checked.value;
      var sessionId := CreateSession(user.id);
      var tokens := GetTokensData(config, user.id, user.role, sessionId, now);
      if tokens.Failure? {
        r := Failure(Rethrow(tokens.error));
        return;
      }
      FindByIdFinds(users, user);
      r := Success(LoginResponse(tokens.value.refreshToken, tokens.value.token, tokens.value.tokenExpires, user));
    }

    /** `me`: the user named by the access token's `id`, or null; nothing is changed. */
    function Me(payload: Claims): (r: Option<User>)
      requires payload.AccessClaims?
      ensures r.Some? ==> r.value in users && r.value.id == payload.id
      ensures r.None? <==> forall u :: u in users ==> u.id != payload.id
    {
      FindById(users, payload.id)
    }

    /** `refreshToken`: Unauthorized exactly when the session is missing or
        soft-deleted; otherwise tokens for the session's user and role bound
        to the same session id. Failures other than Unauthorized propagate
        unwrapped; no session is created. */
    function RefreshToken(sessionId: int, now: int): (r: Result<TokensData, Thrown>)
      reads this
      ensures r == Failure(Unauthorized()) <==> sessionId !in sessions || sessions[sessionId].deleted
      ensures r.Failure? ==> r.error == Unauthorized() || r.error.RuntimeError?
      ensures sessionId in sessions && !sessions[sessionId].deleted
              && FindById(users, sessions[sessionId].userId).Some? && MissingKey(config).None?
              ==> r.Success?
      ensures r.Success? ==>
                && sessionId in sessions && FindById(users, sessions[sessionId].userId).Some?
                && var owner := FindById(users, sessions[sessionId].userId).value;
                   r == GetTokensData(config, owner.id, owner.role, sessionId, now)
      ensures r.Success? ==>
                && sessionId in sessions && !sessions[sessionId].deleted
                && (exists u :: u in users && u.id == sessions[sessionId].userId
                                && r.value.token.claims == AccessClaims(u.id, u.role, sessionId))
                && r.value.refreshToken.claims == RefreshClaims(sessionId)
                && config.expires.Some? && r.value.tokenExpires == now + config.expires.value.millis
    {
      match FindActive(sessions, sessionId)
      case None => Failure(Unauthorized())
      case Some(session) =>
        // `session.user.id` throws when the session's user is not loaded
        match FindById(users, session.userId)
        case None => Failure(RuntimeError(PropertyOfNullish))
        case Some(user) => GetTokensData(config, user.id, user.role, sessionId, now)
    }

    /** `logout`: soft-deletes that one session (a missing or already deleted
        one is not an error); afterwards it cannot be refreshed. */
    method Logout(sessionId: int)
      requires Valid()
      modifies this
      ensures Valid()
      ensures sessions == SoftDelete(old(sessions), sessionId)
      ensures nextSessionId == old(nextSessionId)
      ensures forall now :: RefreshToken(sessionId, now) == Failure(Unauthorized())
    {
      sessions := SoftDelete(sessions, sessionId);
    }

    /** Refreshing an active session later yields the same session's tokens
        with a strictly later `tokenExpires`. */
    lemma RefreshLater(sessionId: int, now: int, later: int)
      requires RefreshToken(sessionId, now).Success?
      requires now < later
      ensures RefreshToken(sessionId, later).Success?
      ensures RefreshToken(sessionId, later).value.token == RefreshToken(sessionId, now).value.token
      ensures RefreshToken(sessionId, later).value.refreshToken == RefreshToken(sessionId, now).value.refreshToken
      ensures RefreshToken(sessionId, now).value.tokenExpires < RefreshToken(sessionId, later).value.tokenExpires
    {
    }
  }
}
