/** The auth session lifecycle of resources/auth/services.ts over the
    `auth_session_db` store: `["auth_sessions", id] → AuthSessionRecord` and
    the by-user index `["auth_sessions_by_user_id", userId] → id`. */
module Auth {
  import opened OptionMonad
  import opened JsValues
  import opened Http
  import opened Users

  /** `AuthSessionRecord` of resources/auth/types.ts. */
  datatype AuthSessionRecord = AuthSessionRecord(
    refresh_tokens_deny_list: seq<string>,
    user_id: string,
    id: string,
    created_at: string,
    updated_at: string)

  /** `TokensObject` and `LoginServiceData` of resources/auth/types.ts. */
  datatype TokensObject = TokensObject(accessToken: string, refreshToken: string)
  datatype LoginServiceData = LoginServiceData(user: Value, tokens: TokensObject)

  /** The claims signed into both kinds of token. */
  datatype JwtPayload = JwtPayload(userId: string, sessionId: string, exp: int, nbf: int, iat: int)

  /** `Deno.env.get("REFRESH_TOKEN_SEED")` and `Deno.env.get("ACCESS_TOKEN_SEED")`. */
  datatype Env = Env(refreshTokenSeed: Option<string>, accessTokenSeed: Option<string>)

  /** What the JWT `verify` call does: return, or throw an error whose
      `name` may be absent. */
  datatype JwtOutcome = Verified | Threw(name: Option<string>)

  const RefreshTokenLifetimeMs: int := 1000 * 60 * 60 * 24 * 1
  const AccessTokenLifetimeMs: int := 1000 * 60 * 15
  const TokenExpiredMessage: string := "Token expired"

  /** The refresh-token claims: valid from `now` for one day. */
  function RefreshTokenPayload(userId: string, sessionId: string, now: int): (p: JwtPayload)
    ensures p.userId == userId && p.sessionId == sessionId
    ensures p.exp == now + 86400000 && p.nbf == now && p.iat == now
  {
    JwtPayload(userId, sessionId, now + RefreshTokenLifetimeMs, now, now)
  }

  /** The access-token claims: valid from `now` for fifteen minutes. */
  function AccessTokenPayload(userId: string, sessionId: string, now: int): (p: JwtPayload)
    ensures p.userId == userId && p.sessionId == sessionId
    ensures p.exp == now + 900000 && p.nbf == now && p.iat == now
  {
    JwtPayload(userId, sessionId, now + AccessTokenLifetimeMs, now, now)
  }

  /** The names of the verification errors that `verifyPayload` reports as 400. */
  predicate IsClientTokenError(name: Option<string>) {
    name == Some("JwtTokenInvalid") || name == Some("JwtTokenNotBefore") || name == Some("JwtTokenExpired")
    || name == Some("JwtTokenIssuedAt") || name == Some("JwtHeaderInvalid")
    || name == Some("JwtTokenSignatureMismatched")
  }

  /** The error result `verifyPayload` builds from the thrown error's name. */
  function VerifyErrorFor(name: Option<string>): (e: HttpError)
    ensures !e.triggerLogout
    ensures e.message == TokenExpiredMessage <==> name == Some("JwtTokenExpired")
    ensures e.status == 400 <==> IsClientTokenError(name)
    ensures e.status == 500 <==> !IsClientTokenError(name)
    ensures name == Some("JwtAlgorithmNotImplemented") ==> e.message == "Algorithm not implemented"
    ensures !IsClientTokenError(name) && name != Some("JwtAlgorithmNotImplemented") ==>
              e.message == "Error verifying token: " + UnwrapOr(name, "Unknown error")
  {
    if name == Some("JwtAlgorithmNotImplemented") then HttpError("Algorithm not implemented", 500, false)
    else if name == Some("JwtTokenInvalid") then HttpError("Invalid token", 400, false)
    else if name == Some("JwtTokenNotBefore") then HttpError("Token not yet valid", 400, false)
    else if name == Some("JwtTokenExpired") then HttpError(TokenExpiredMessage, 400, false)
    else if name == Some("JwtTokenIssuedAt") then HttpError("Token issued in the future", 400, false)
    else if name == Some("JwtHeaderInvalid") then HttpError("Invalid token header", 400, false)
    else if name == Some("JwtTokenSignatureMismatched") then HttpError("Token signature mismatched", 400, false)
    else HttpError("Error verifying token: " + UnwrapOr(name, "Unknown error"), 500, false)
  }

  /** The 400 errors are told apart by their messages. */
  lemma ClientTokenErrorsDistinct(a: Option<string>, b: Option<string>)
    requires IsClientTokenError(a) && IsClientTokenError(b) && a != b
    ensures VerifyErrorFor(a).message != VerifyErrorFor(b).message
  {
  }

  /** `verifyPayload(seed, token)`: calls `verify(token, seed)` with its
      arguments in the order it declares them. */
  function VerifyPayload(seed: string, token: string, verifyJwt: (string, string) -> JwtOutcome): (r: ServiceResult<bool>)
    ensures r.Ok? <==> verifyJwt(token, seed).Verified?
    ensures r.Ok? ==> r.success == HttpSuccess(true, "Token verified", 200, false)
    ensures r.Err? ==> r.error == VerifyErrorFor(verifyJwt(token, seed).name)
  {
    match verifyJwt(token, seed)
    case Verified => Ok(HttpSuccess(true, "Token verified", 200, false))
    case Threw(name) => Err(VerifyErrorFor(name))
  }

  /** A verification error that is not expiry: the refresh flow revokes. */
  predicate Rejected(v: ServiceResult<bool>) {
    v.Err? && v.error.message != TokenExpiredMessage
  }

  /** An expiry: the refresh flow signs a replacement token. */
  predicate Expired(v: ServiceResult<bool>) {
    v.Err? && v.error.message == TokenExpiredMessage
  }

  /** Only `JwtTokenExpired` leads to rotation, every other error name to revocation. */
  lemma ExpiredOnlyForJwtTokenExpired(seed: string, token: string, verifyJwt: (string, string) -> JwtOutcome)
    ensures Expired(VerifyPayload(seed, token, verifyJwt)) <==> verifyJwt(token, seed) == Threw(Some("JwtTokenExpired"))
    ensures Rejected(VerifyPayload(seed, token, verifyJwt)) <==>
              verifyJwt(token, seed).Threw? && verifyJwt(token, seed).name != Some("JwtTokenExpired")
  {
  }

  /** The record after `upsertAuthSessionTokensService` pushed `token` onto
      its deny-list and bumped `updated_at`. */
  function WithDeniedToken(rec: AuthSessionRecord, token: string, now: string): (r: AuthSessionRecord)
    ensures r.refresh_tokens_deny_list == rec.refresh_tokens_deny_list + [token]
    ensures r.updated_at == now
    ensures r.id == rec.id && r.user_id == rec.user_id && r.created_at == rec.created_at
  {
    rec.(refresh_tokens_deny_list := rec.refresh_tokens_deny_list + [token], updated_at := now)
  }

  /** The `auth_session_db` Deno KV database. */
  class AuthSessionDb {
    /** `["auth_sessions", id] → record`. */
    var sessions: map<string, AuthSessionRecord>
    /** `["auth_sessions_by_user_id", userId] → id`, written without expiry
        and never removed. */
    var sessionIdByUser: map<string, string>

    constructor ()
      ensures sessions == map[] && sessionIdByUser == map[]
    {
      sessions := map[];
      sessionIdByUser := map[];
    }

    /** Each record sits under its own id, and the index maps the owner of
        each live session to that session. */
    ghost predicate Valid()
      reads this
    {
      && (forall id :: id in sessions ==> sessions[id].id == id)
      && (forall id :: id in sessions ==>
            sessions[id].user_id in sessionIdByUser && sessionIdByUser[sessions[id].user_id] == id)
    }

    /** `token` is on the deny-list of the live session `sessionId`. */
    ghost predicate Denied(sessionId: string, token: string)
      reads this
    {
      sessionId in sessions && token in sessions[sessionId].refresh_tokens_deny_list
    }

    /** In a valid store a user owns at most one live session. */
    lemma OneLiveSessionPerUser(a: string, b: string)
      requires Valid()
      requires a in sessions && b in sessions && sessions[a].user_id == sessions[b].user_id
      ensures a == b
    {
    }

    /** `isTokenInDenyListService(refreshToken, sessionId)`: reads only. */
    method IsTokenInDenyList(refreshToken: string, sessionId: string) returns (r: ServiceResult<bool>)
      ensures sessionId !in sessions ==> r == Err(HttpError("Session not found", 404, false))
      ensures sessionId in sessions ==> r.Ok? && r.success.status == 200 && !r.success.triggerLogout
      ensures r.Ok? ==> (r.success.data <==> Denied(sessionId, refreshToken))
      ensures r.Ok? ==> r.success.message == if r.success.data then "Token in deny list" else "Token not in deny list"
    {
      if sessionId !in sessions {
        return Err(HttpError("Session not found", 404, false));
      }
      var isTokenInDenyList := refreshToken in sessions[sessionId].refresh_tokens_deny_list;
      var message := if isTokenInDenyList then "Token in deny list" else "Token not in deny list";
      return Ok(HttpSuccess(isTokenInDenyList, message, 200, false));
    }

    /** `createNewAuthSessionService(userId)`, with `ulid()` as `newId` and
        the ISO timestamp as `now`. */
    method CreateNewAuthSession(userId: string, newId: string, now: string) returns (r: ServiceResult<string>)
      modifies this
      ensures userId in old(sessionIdByUser) ==>
                r == Err(HttpError("Auth session already exists", 400, false))
                && sessions == old(sessions) && sessionIdByUser == old(sessionIdByUser)
      ensures userId !in old(sessionIdByUser) ==>
                r == Ok(HttpSuccess(newId, "Session created", 201, false))
                && sessions == old(sessions)[newId := AuthSessionRecord([], userId, newId, now, now)]
                && sessionIdByUser == old(sessionIdByUser)[userId := newId]
      ensures old(Valid()) ==> Valid()
    {
      if userId in sessionIdByUser {
        return Err(HttpError("Auth session already exists", 400, false));
      }
      var authSessionRecord := AuthSessionRecord([], userId, newId, now, now);
      sessions := sessions[newId := authSessionRecord];
      sessionIdByUser := sessionIdByUser[userId := newId];
      return Ok(HttpSuccess(newId, "Session created", 201, false));
    }

    /** `deleteAuthSessionService(sessionId)`: deletes the primary key only,
        and succeeds whether or not it was there. */
    method DeleteAuthSession(sessionId: string) returns (r: ServiceResult<bool>)
      modifies this
      ensures r == Ok(HttpSuccess(true, "Session deleted", 200, true))
      ensures sessions == old(sessions) - {sessionId}
      ensures sessionIdByUser == old(sessionIdByUser)
      ensures old(Valid()) ==> Valid()
    {
      sessions := sessions - {sessionId};
      return Ok(HttpSuccess(true, "Session deleted", 200, true));
    }

    /** `upsertAuthSessionTokensService(refreshToken, sessionId)`: appends
        the token to the session's deny-list. */
    method UpsertAuthSessionTokens(refreshToken: string, sessionId: string, now: string)
      returns (r: ServiceResult<AuthSessionRecord>)
      modifies this
      ensures sessionId !in old(sessions) ==>
                r == Err(HttpError("Session not found", 404, false)) && sessions == old(sessions)
      ensures sessionId in old(sessions) ==>
                var updated := WithDeniedToken(old(sessions)[sessionId], refreshToken, now);
                r == Ok(HttpSuccess(updated, "Session updated", 200, false))
                && sessions == old(sessions)[sessionId := updated]
                && Denied(sessionId, refreshToken)
      ensures sessionIdByUser == old(sessionIdByUser)
      ensures forall s, t :: old(Denied(s, t)) ==> Denied(s, t)
      ensures old(Valid()) ==> Valid()
    {
      if sessionId !in sessions {
        return Err(HttpError("Session not found", 404, false));
      }
      var authSessionRecord := WithDeniedToken(sessions[sessionId], refreshToken, now);
      sessions := sessions[sessionId := authSessionRecord];
      return Ok(HttpSuccess(authSessionRecord, "Session updated", 200, false));
    }

    /** `tokensRefreshService({accessToken, refreshToken, sessionId, userId})`.
        Both calls of `verifyPayload` pass the token first and the seed
        second, as the source does. */
    method TokensRefresh(accessToken: string, refreshToken: string, sessionId: string, userId: string,
                         env: Env, verifyJwt: (string, string) -> JwtOutcome,
                         sign: (JwtPayload, string) -> string, nowIso: string, nowMs: int)
      returns (r: ServiceResult<TokensObject>)
      modifies this
      // a missing session or a deny-listed refresh token: reject, write nothing
      ensures sessionId !in old(sessions) ==>
                r == Err(HttpError("Session not found", 404, true)) && sessions == old(sessions)
      ensures old(Denied(sessionId, refreshToken)) ==>
                r == Err(HttpError("Token in deny list", 401, true)) && sessions == old(sessions)
      // otherwise the seeds and the two verifications decide, refresh token first
      ensures sessionId in old(sessions) && !old(Denied(sessionId, refreshToken)) ==>
                if env.refreshTokenSeed.None? then
                  r == Err(HttpError("Refresh token seed not found", 500, true)) && sessions == old(sessions)
                else
                  var refreshCheck := VerifyPayload(refreshToken, env.refreshTokenSeed.value, verifyJwt);
                  if Rejected(refreshCheck) then
                    r == Err(HttpError("Invalid refresh token", 401, true))
                    && sessions == old(sessions)[sessionId := WithDeniedToken(old(sessions)[sessionId], refreshToken, nowIso)]
                  else if env.accessTokenSeed.None? then
                    r == Err(HttpError("Access token seed not found", 500, true)) && sessions == old(sessions)
                  else
                    var accessCheck := VerifyPayload(accessToken, env.accessTokenSeed.value, verifyJwt);
                    if Rejected(accessCheck) then
                      r == Err(HttpError("Invalid access token", 401, true))
                      && sessions == old(sessions)[sessionId := WithDeniedToken(old(sessions)[sessionId], refreshToken, nowIso)]
                    else
                      sessions == old(sessions)
                      && r == Ok(HttpSuccess(
                                TokensObject(
                                  if Expired(accessCheck)
                                  then sign(AccessTokenPayload(userId, sessionId, nowMs), env.accessTokenSeed.value)
                                  else accessToken,
                                  if Expired(refreshCheck)
                                  then sign(RefreshTokenPayload(userId, sessionId, nowMs), env.refreshTokenSeed.value)
                                  else refreshToken),
                                "Tokens refreshed", 200, false))
      ensures r.Err? ==> r.error.triggerLogout
      ensures r.Ok? ==> sessions == old(sessions)
      ensures sessionIdByUser == old(sessionIdByUser)
      ensures forall s, t :: old(Denied(s, t)) ==> Denied(s, t)
      ensures r == Err(HttpError("Invalid refresh token", 401, true)) || r == Err(HttpError("Invalid access token", 401, true))
              ==> Denied(sessionId, refreshToken)
      ensures old(Valid()) ==> Valid()
    {
      if sessionId !in sessions {
        return Err(HttpError("Session not found", 404, true));
      }
      var authSessionRecord := sessions[sessionId];
      if refreshToken in authSessionRecord.refresh_tokens_deny_list {
        return Err(HttpError("Token in deny list", 401, true));
      }
      if env.refreshTokenSeed.None? {
        return Err(HttpError("Refresh token seed not found", 500, true));
      }
      var refreshSeed := env.refreshTokenSeed.value;
      var refreshTokenVerifyResult := VerifyPayload(refreshToken, refreshSeed, verifyJwt);
      if Rejected(refreshTokenVerifyResult) {
        var _ := UpsertAuthSessionTokens(refreshToken, sessionId, nowIso);
        return Err(HttpError("Invalid refresh token", 401, true));
      }
      var newRefreshToken := refreshToken;
      if Expired(refreshTokenVerifyResult) {
        newRefreshToken := sign(RefreshTokenPayload(userId, sessionId, nowMs), refreshSeed);
      }
      if env.accessTokenSeed.None? {
        return Err(HttpError("Access token seed not found", 500, true));
      }
      var accessSeed := env.accessTokenSeed.value;
      var accessTokenVerifyResult := VerifyPayload(accessToken, accessSeed, verifyJwt);
      if Rejected(accessTokenVerifyResult) {
        var _ := UpsertAuthSessionTokens(refreshToken, sessionId, nowIso);
        return Err(HttpError("Invalid access token", 401, true));
      }
      var newAccessToken := accessToken;
      if Expired(accessTokenVerifyResult) {
        newAccessToken := sign(AccessTokenPayload(userId, sessionId, nowMs), accessSeed);
      }
      return Ok(HttpSuccess(TokensObject(newAccessToken, newRefreshToken), "Tokens refreshed", 200, false));
    }

    /** `logoutUserService(sessionId)`: the delete, reported as a logout. */
    method LogoutUser(sessionId: string) returns (r: ServiceResult<bool>)
      modifies this
      ensures r == Ok(HttpSuccess(true, "Logged out", 200, true))
      ensures sessions == old(sessions) - {sessionId}
      ensures sessionIdByUser == old(sessionIdByUser)
      ensures old(Valid()) ==> Valid()
    {
      var result := DeleteAuthSession(sessionId);
      if result.Err? {
        return result;
      }
      return Ok(HttpSuccess(true, "Logged out", 200, true));
    }
  }

  /** The `id` of a stored user value, when it is a string; anything else
      cannot be a key part of the by-user index. */
  function UserIdOf(user: Value): Option<string> {
    match FieldOf(user, "id")
    case Some(Str(id)) => Some(id)
    case _ => None
  }

  /** The user a login with `email` finds and the password check accepts. */
  ghost predicate CredentialsAccepted(users: UserDb, email: string, password: string,
                                      compare: (string, Option<Value>) -> bool)
    reads users
  {
    && email != "" && password != ""
    && users.RecordByEmail(email).Some?
    && compare(password, FieldOf(users.RecordByEmail(email).value, "password"))
  }

  /** `loginUserService(email, password)`. `compare` is the bcrypt check of
      the password against the stored record's `password` property. */
  method LoginUser(users: UserDb, auth: AuthSessionDb, email: string, password: string,
                   env: Env, compare: (string, Option<Value>) -> bool, sign: (JwtPayload, string) -> string,
                   newSessionId: string, nowIso: string, nowMs: int)
    returns (r: ServiceResult<LoginServiceData>)
    modifies auth
    ensures email == "" || password == "" ==> r == Err(HttpError("Invalid login data", 400, false))
    ensures email != "" && password != "" && users.RecordByEmail(email).None? ==>
              r == Err(HttpError("User not found", 404, false))
    ensures email != "" && password != "" && users.RecordByEmail(email).Some?
            && !compare(password, FieldOf(users.RecordByEmail(email).value, "password")) ==>
              r == Err(HttpError("Invalid credentials", 401, false))
    ensures !CredentialsAccepted(users, email, password, compare) ==>
              auth.sessions == old(auth.sessions) && auth.sessionIdByUser == old(auth.sessionIdByUser)
    ensures CredentialsAccepted(users, email, password, compare) ==>
              var user := users.RecordByEmail(email).value;
              if UserIdOf(user).None? || UserIdOf(user).value in old(auth.sessionIdByUser) then
                r == Err(HttpError("Error creating session", 500, false))
                && auth.sessions == old(auth.sessions) && auth.sessionIdByUser == old(auth.sessionIdByUser)
              else
                var userId := UserIdOf(user).value;
                && auth.sessions == old(auth.sessions)[newSessionId := AuthSessionRecord([], userId, newSessionId, nowIso, nowIso)]
                && auth.sessionIdByUser == old(auth.sessionIdByUser)[userId := newSessionId]
                && (env.refreshTokenSeed.None? ==> r == Err(HttpError("Refresh token seed not found", 500, false)))
                && (env.refreshTokenSeed.Some? && env.accessTokenSeed.None? ==>
                      r == Err(HttpError("Access token seed not found", 500, false)))
                && (env.refreshTokenSeed.Some? && env.accessTokenSeed.Some? ==>
                      r == Ok(HttpSuccess(
                             LoginServiceData(user, TokensObject(
                               sign(AccessTokenPayload(userId, newSessionId, nowMs), env.accessTokenSeed.value),
                               sign(RefreshTokenPayload(userId, newSessionId, nowMs), env.refreshTokenSeed.value))),
                             "Logged in", 200, false)))
    ensures old(auth.Valid()) ==> auth.Valid()
  {
    if email == "" || password == "" {
      return Err(HttpError("Invalid login data", 400, false));
    }
    if email !in users.usersByEmail {
      return Err(HttpError("User not found", 404, false));
    }
    var primaryKey := users.usersByEmail[email];
    if primaryKey !in users.usersById {
      return Err(HttpError("User not found", 404, false));
    }
    var userRecord := users.usersById[primaryKey];
    var isPasswordCorrect := compare(password, FieldOf(userRecord, "password"));
    if !isPasswordCorrect {
      return Err(HttpError("Invalid credentials", 401, false));
    }
    var userId := UserIdOf(userRecord);
    if userId.None? {
      // the store refuses a key part that is not a string, and
      // createNewAuthSessionService reports that as an error
      return Err(HttpError("Error creating session", 500, false));
    }
    var createdAuthSession := auth.CreateNewAuthSession(userId.value, newSessionId, nowIso);
    if createdAuthSession.Err? {
      return Err(HttpError("Error creating session", 500, false));
    }
    var sessionId := createdAuthSession.success.data;
    if env.refreshTokenSeed.None? {
      return Err(HttpError("Refresh token seed not found", 500, false));
    }
    var refreshToken := sign(RefreshTokenPayload(userId.value, sessionId, nowMs), env.refreshTokenSeed.value);
    if env.accessTokenSeed.None? {
      return Err(HttpError("Access token seed not found", 500, false));
    }
    var accessToken := sign(AccessTokenPayload(userId.value, sessionId, nowMs), env.accessTokenSeed.value);
    return Ok(HttpSuccess(LoginServiceData(userRecord, TokensObject(accessToken, refreshToken)), "Logged in", 200, false));
  }

  /** `registerUserService(userSchema)`: create the user, then log in with the
      created record's email and the submitted password. Because the stored
      value is the list `[userRecord]`, the login finds no `id` and no
      `password` on it, so a new registration never yields tokens. */
  method RegisterUser(users: UserDb, auth: AuthSessionDb, userSchema: UserSchema,
                      env: Env, compare: (string, Option<Value>) -> bool, sign: (JwtPayload, string) -> string,
                      newUserId: string, newSessionId: string, nowIso: string, nowMs: int)
    returns (r: ServiceResult<LoginServiceData>)
    modifies users, auth
    ensures userSchema.email in old(users.usersByEmail) ==>
              r == Err(HttpError("User already exists", 400, false))
              && users.usersById == old(users.usersById) && users.usersByEmail == old(users.usersByEmail)
    ensures userSchema.email !in old(users.usersByEmail) ==>
              users.usersById == old(users.usersById)[newUserId := Arr([NewUserRecord(userSchema, newUserId, nowIso)])]
              && users.usersByEmail == old(users.usersByEmail)[userSchema.email := newUserId]
              && r == if userSchema.email == "" || userSchema.password == "" then Err(HttpError("Invalid login data", 400, false))
                      else if !compare(userSchema.password, None) then Err(HttpError("Invalid credentials", 401, false))
                      else Err(HttpError("Error creating session", 500, false))
    ensures r.Err?
    ensures auth.sessions == old(auth.sessions) && auth.sessionIdByUser == old(auth.sessionIdByUser)
    ensures old(users.Valid()) ==> users.Valid()
  {
    var createdUserResult := users.CreateUser(userSchema, newUserId, nowIso);
    if createdUserResult.Err? {
      return Err(createdUserResult.error);
    }
    var user := createdUserResult.success.data;
    assert FieldOf(user, "email") == Some(Str(userSchema.email));
    var email := FieldOf(user, "email").value.s;
    assert !IsDigit("password"[0]) && !IsDigit("id"[0]);
    NamedFieldOfArray([user], "password");
    NamedFieldOfArray([user], "id");
    r := LoginUser(users, auth, email, userSchema.password, env, compare, sign, newSessionId, nowIso, nowMs);
  }
}
