/** Sequences of service calls, with what the contracts of the single calls
    imply about them. */
module Scenarios {
  import opened OptionMonad
  import opened JsValues
  import opened Http
  import opened Users
  import opened Auth

  /** Logging out does not free the user: the by-user index survives the
      delete, so a second session for the same user is refused. */
  method SessionAfterLogoutRefused(auth: AuthSessionDb, userId: string, firstId: string, secondId: string, now: string)
    returns (second: ServiceResult<string>)
    modifies auth
    ensures second == Err(HttpError("Auth session already exists", 400, false))
    ensures userId in auth.sessionIdByUser
  {
    var first := auth.CreateNewAuthSession(userId, firstId, now);
    var loggedOut := auth.LogoutUser(firstId);
    second := auth.CreateNewAuthSession(userId, secondId, now);
  }

  /** A user who logged in and out cannot log in again: the second login
      fails with 500 "Error creating session" and writes nothing. */
  method LoginAfterLogoutFails(users: UserDb, auth: AuthSessionDb, email: string, password: string,
                               env: Env, compare: (string, Option<Value>) -> bool, sign: (JwtPayload, string) -> string,
                               firstId: string, secondId: string, nowIso: string, nowMs: int)
    returns (first: ServiceResult<LoginServiceData>, second: ServiceResult<LoginServiceData>)
    modifies auth
    ensures first.Ok? ==> second == Err(HttpError("Error creating session", 500, false))
  {
    first := LoginUser(users, auth, email, password, env, compare, sign, firstId, nowIso, nowMs);
    var loggedOut := auth.LogoutUser(firstId);
    second := LoginUser(users, auth, email, password, env, compare, sign, secondId, nowIso, nowMs);
  }

  /** A refresh that revokes its refresh token makes every later refresh
      presenting that token fail as deny-listed, whatever the verifier says
      then; the session itself stays. */
  method RevokedRefreshTokenStaysRevoked(auth: AuthSessionDb, accessToken: string, refreshToken: string,
                                         sessionId: string, userId: string, env: Env,
                                         verifyFirst: (string, string) -> JwtOutcome,
                                         verifyLater: (string, string) -> JwtOutcome,
                                         laterAccessToken: string,
                                         sign: (JwtPayload, string) -> string, nowIso: string, nowMs: int)
    returns (first: ServiceResult<TokensObject>, second: ServiceResult<TokensObject>)
    modifies auth
    ensures first == Err(HttpError("Invalid refresh token", 401, true))
            || first == Err(HttpError("Invalid access token", 401, true)) ==>
              second == Err(HttpError("Token in deny list", 401, true)) && sessionId in auth.sessions
  {
    first := auth.TokensRefresh(accessToken, refreshToken, sessionId, userId, env, verifyFirst, sign, nowIso, nowMs);
    second := auth.TokensRefresh(laterAccessToken, refreshToken, sessionId, userId, env, verifyLater, sign, nowIso, nowMs);
  }

  /** After a successful deny-list append the membership query reports the token. */
  method AppendedTokenIsDenied(auth: AuthSessionDb, refreshToken: string, sessionId: string, now: string)
    returns (upserted: ServiceResult<AuthSessionRecord>, check: ServiceResult<bool>)
    modifies auth
    ensures upserted.Ok? <==> check.Ok?
    ensures upserted.Ok? ==> check == Ok(HttpSuccess(true, "Token in deny list", 200, false))
  {
    upserted := auth.UpsertAuthSessionTokens(refreshToken, sessionId, now);
    check := auth.IsTokenInDenyList(refreshToken, sessionId);
  }

  /** Deleting a user keeps the email index, so the email cannot be registered again. */
  method DeletedUserEmailStaysTaken(users: UserDb, userSchema: UserSchema, firstId: string, secondId: string, now: string)
    returns (created: ServiceResult<Value>, recreated: ServiceResult<Value>)
    modifies users
    ensures recreated == Err(HttpError("User already exists", 400, false))
    ensures firstId !in users.usersById
  {
    created := users.CreateUser(userSchema, firstId, now);
    var deleted := users.DeleteUser(firstId);
    recreated := users.CreateUser(userSchema, secondId, now);
  }
}
