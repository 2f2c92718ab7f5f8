/** Authentication and authorization (controllers/authController.js): the
    session token (its extraction from a request, the checks of `protect`
    and of its silent variant `isLoggedIn`, the role check of `restrictTo`),
    login, the session cookie, and the password-reset token lifecycle.

    JWT signing and verification, the sha256 digest, `correctPassword`,
    `changedPasswordAfter` and `createPasswordResetToken` are parameters;
    the clock is the parameter `now` (milliseconds); e-mail delivery is the
    flag `emailDelivered`. */
module AuthController {
  import opened Js
  import opened AppError
  import opened UserModel
  import opened Express
  import ErrorController

  /** The payload of a verified token: the user id and the issued-at time. */
  datatype Claims = Claims(id: UserId, iat: int)

  /** `signToken` and `promisify(jwt.verify)`: a failed verification is the
      token library's own error (JsonWebTokenError, TokenExpiredError). */
  datatype Jwt = Jwt(sign: UserId -> string, verify: string -> Result<Claims, ErrorRecord>)

  /** What `createPasswordResetToken` produced: the plaintext that is mailed,
      the hash that is stored and the expiry. */
  datatype ResetIssue = ResetIssue(plain: string, hashed: string, expires: int)

  ghost predicate Injective(hash: string -> string)
  {
    forall a, b :: hash(a) == hash(b) ==> a == b
  }

  const MsPerDay := 24 * 60 * 60 * 1000

  function NotLoggedInError(): ErrorRecord
  {
    NewAppError("You are not logged in! Please log in to get access.", Some(401))
  }

  function UserGoneError(): ErrorRecord
  {
    NewAppError("The user belonging to this token does no longer exist!", Some(401))
  }

  function PasswordChangedError(): ErrorRecord
  {
    NewAppError("User recently changed password! Please log in again.", Some(401))
  }

  function NoPermissionError(): ErrorRecord
  {
    NewAppError("You do not have permission to perform this action.", Some(403))
  }

  function MissingCredentialsError(): ErrorRecord
  {
    NewAppError("Please provide email and password", Some(400))
  }

  function IncorrectCredentialsError(): ErrorRecord
  {
    NewAppError("Incorrect email or password", Some(401))
  }

  function NoUserWithEmailError(): ErrorRecord
  {
    NewAppError("There is no user with email address.", Some(404))
  }

  /** The 500 passed to `next` next to this error is not the error's code:
      the AppError is created without one. */
  function EmailSendError(): ErrorRecord
  {
    NewAppError("There was an error sending the email. Try again later!", None)
  }

  function TokenInvalidError(): ErrorRecord
  {
    NewAppError("Token is invalid or has expired", Some(400))
  }

  /** `updatePassword` when the user is gone: a 403, unlike `protect`'s 401. */
  function UpdateNotLoggedInError(): ErrorRecord
  {
    NewAppError("You are not logged in! Please log in to get access.", Some(403))
  }

  function WrongCurrentPasswordError(): ErrorRecord
  {
    NewAppError("Your current password is wrong.", Some(401))
  }

  // ---------------------------------------------------------------------
  // The session token and the guards

  /** The `Authorization` header is present, not empty, and starts with "Bearer". */
  predicate IsBearer(authorization: Option<string>)
  {
    Truthy(authorization) && StartsWith(authorization.value, "Bearer")
  }

  /** The token of a request: with a Bearer header, the second space-separated
      piece of the header (none when there is no second piece, whatever the
      cookie holds); otherwise the `jwt` cookie when it is truthy. */
  function ExtractToken(authorization: Option<string>, cookie: Option<string>): (token: Option<string>)
    ensures IsBearer(authorization) ==> (token.Some? <==> ' ' in authorization.value)
    ensures IsBearer(authorization) && token.Some? ==>
      |Split(authorization.value, ' ')| > 1 && token.value == Split(authorization.value, ' ')[1] && ' ' !in token.value
    ensures !IsBearer(authorization) ==> (token.Some? <==> Truthy(cookie))
    ensures !IsBearer(authorization) && token.Some? ==> token == cookie
  {
    if IsBearer(authorization) then
      var parts := Split(authorization.value, ' ');
      OccurrencesPositive(authorization.value, ' ');
      if |parts| > 1 then Some(parts[1]) else None
    else if Truthy(cookie) then cookie
    else None
  }

  /** The three checks that `protect` and `isLoggedIn` share, on a token
      that is there: it verifies, its user still exists, and that user has
      not changed the password after the token was issued. */
  datatype Resolution = VerifyFailed(err: ErrorRecord) | UserGone | PasswordChanged | Resolved(user: User)

  function Resolve(users: map<UserId, User>, token: string, jwt: Jwt,
                   changedPasswordAfter: (User, int) -> bool): (r: Resolution)
    ensures r.VerifyFailed? <==> jwt.verify(token).Err?
    ensures r.VerifyFailed? ==> r.err == jwt.verify(token).error
    ensures r.UserGone? <==> jwt.verify(token).Ok? && jwt.verify(token).value.id !in users
    ensures r.Resolved? <==>
      && jwt.verify(token).Ok?
      && jwt.verify(token).value.id in users
      && !changedPasswordAfter(WithoutPassword(users[jwt.verify(token).value.id]), jwt.verify(token).value.iat)
    ensures r.Resolved? ==>
      r.user == WithoutPassword(users[jwt.verify(token).value.id]) && r.user.password.None?
  {
    match jwt.verify(token)
    case Err(e) => VerifyFailed(e)
    case Ok(decoded) =>
      if decoded.id !in users then UserGone
      else
        var currentUser := WithoutPassword(users[decoded.id]);
        if changedPasswordAfter(currentUser, decoded.iat) then PasswordChanged
        else Resolved(currentUser)
  }

  /** The verdict of `protect`. */
  datatype Guard = Grant(user: User) | Deny(err: ErrorRecord)

  function ProtectGuard(users: map<UserId, User>, authorization: Option<string>, cookie: Option<string>,
                        jwt: Jwt, changedPasswordAfter: (User, int) -> bool): (g: Guard)
    // no token: refused before any user is looked up
    ensures !Truthy(ExtractToken(authorization, cookie)) ==> g == Deny(NotLoggedInError())
    // access exactly when the token is there and every check passes
    ensures g.Grant? <==>
      Truthy(ExtractToken(authorization, cookie))
      && Resolve(users, ExtractToken(authorization, cookie).value, jwt, changedPasswordAfter).Resolved?
    ensures g.Grant? ==>
      g.user == Resolve(users, ExtractToken(authorization, cookie).value, jwt, changedPasswordAfter).user
    // each failed check, in order, has its own error
    ensures Truthy(ExtractToken(authorization, cookie)) ==>
      var r := Resolve(users, ExtractToken(authorization, cookie).value, jwt, changedPasswordAfter);
      && (r.VerifyFailed? ==> g == Deny(r.err))
      && (r.UserGone? ==> g == Deny(UserGoneError()))
      && (r.PasswordChanged? ==> g == Deny(PasswordChangedError()))
  {
    var token := ExtractToken(authorization, cookie);
    if !Truthy(token) then Deny(NotLoggedInError())
    else
      match Resolve(users, token.value, jwt, changedPasswordAfter)
      case VerifyFailed(e) => Deny(e)
      case UserGone => Deny(UserGoneError())
      case PasswordChanged => Deny(PasswordChangedError())
      case Resolved(u) => Grant(u)
  }

  /** `protect`: on success `req.user` is the current user and `next()` is
      called; on any failure `req.user` is untouched and `next` gets the error. */
  method Protect(store: UserStore, req: Request, jwt: Jwt, changedPasswordAfter: (User, int) -> bool)
    returns (next: Next)
    requires store.Valid()
    modifies req`user
    ensures var g := ProtectGuard(store.users, req.authorization, req.jwtCookie, jwt, changedPasswordAfter);
      && (g.Grant? ==> req.user == Some(g.user) && next == Called)
      && (g.Deny? ==> req.user == old(req.user) && next == CalledWithError(g.err))
  {
    // 1) the token
    var token := ExtractToken(req.authorization, req.jwtCookie);
    if !Truthy(token) {
      return CalledWithError(NotLoggedInError());
    }
    // 2) verification; a rejection reaches `next` through catchAsync
    var decoded := jwt.verify(token.value);
    if decoded.Err? {
      return CalledWithError(decoded.error);
    }
    // 3) the user still exists
    if decoded.value.id !in store.users {
      return CalledWithError(UserGoneError());
    }
    var currentUser := WithoutPassword(store.users[decoded.value.id]);
    // 4) the password was not changed after the token was issued
    if changedPasswordAfter(currentUser, decoded.value.iat) {
      return CalledWithError(PasswordChangedError());
    }
    req.user := Some(currentUser);
    next := Called;
  }

  /** The verdict of `isLoggedIn`: the user for `res.locals.user`, if any,
      and how `next` is called. */
  datatype Silent = Silent(locals: Option<User>, next: Next)

  function LoggedInCheck(users: map<UserId, User>, cookie: Option<string>, jwt: Jwt,
                         changedPasswordAfter: (User, int) -> bool): (s: Silent)
    ensures !Truthy(cookie) ==> s == Silent(None, Called)
    // it creates no error of its own: the only error is a failed verification's
    ensures s.next != Called ==>
      Truthy(cookie) && jwt.verify(cookie.value).Err? && s.next == CalledWithError(jwt.verify(cookie.value).error)
    // and a failed verification is not caught: it reaches `next`
    ensures Truthy(cookie) && jwt.verify(cookie.value).Err? ==>
      s.next == CalledWithError(jwt.verify(cookie.value).error)
    ensures !s.next.NotCalled?
    ensures s.locals.Some? <==> Truthy(cookie) && Resolve(users, cookie.value, jwt, changedPasswordAfter).Resolved?
    ensures s.locals.Some? ==> s.locals.value == Resolve(users, cookie.value, jwt, changedPasswordAfter).user
  {
    if Truthy(cookie) then
      match Resolve(users, cookie.value, jwt, changedPasswordAfter)
      case VerifyFailed(e) => Silent(None, CalledWithError(e))
      case UserGone => Silent(None, Called)
      case PasswordChanged => Silent(None, Called)
      case Resolved(u) => Silent(Some(u), Called)
    else Silent(None, Called)
  }

  /** `isLoggedIn`: sets `res.locals.user` only for a logged-in user. */
  method IsLoggedIn(store: UserStore, req: Request, res: Response, jwt: Jwt,
                    changedPasswordAfter: (User, int) -> bool) returns (next: Next)
    requires store.Valid()
    modifies res`localsUser
    ensures var s := LoggedInCheck(store.users, req.jwtCookie, jwt, changedPasswordAfter);
      && next == s.next
      && res.localsUser == (if s.locals.Some? then s.locals else old(res.localsUser))
  {
    if Truthy(req.jwtCookie) {
      // 1) verification; a rejection is not caught here
      var decoded := jwt.verify(req.jwtCookie.value);
      if decoded.Err? {
        return CalledWithError(decoded.error);
      }
      // 2) the user still exists
      if decoded.value.id !in store.users {
        return Called;
      }
      var currentUser := WithoutPassword(store.users[decoded.value.id]);
      // 3) the password was not changed after the token was issued
      if changedPasswordAfter(currentUser, decoded.value.iat) {
        return Called;
      }
      res.localsUser := Some(currentUser);
      return Called;
    }
    next := Called;
  }

  /** On a request that carries no Bearer header the two guards agree:
      `protect` grants exactly the user that `isLoggedIn` puts in the locals,
      and both forward the same verification error. */
  lemma GuardsAgreeOnCookie(users: map<UserId, User>, authorization: Option<string>, cookie: Option<string>,
                            jwt: Jwt, changedPasswordAfter: (User, int) -> bool)
    requires !IsBearer(authorization)
    ensures var g := ProtectGuard(users, authorization, cookie, jwt, changedPasswordAfter);
            var s := LoggedInCheck(users, cookie, jwt, changedPasswordAfter);
      && (g.Grant? <==> s.locals.Some?)
      && (g.Grant? ==> s.locals.value == g.user)
      && (s.next.CalledWithError? ==> g == Deny(s.next.err))
      && (Truthy(cookie) && jwt.verify(cookie.value).Err? ==>
            s.next == CalledWithError(jwt.verify(cookie.value).error) && g == Deny(jwt.verify(cookie.value).error))
  {
  }

  /** A Bearer header without a second piece leaves the request without a
      token, so `protect` refuses it even when the cookie would let
      `isLoggedIn` through. */
  lemma BearerWithoutTokenIgnoresCookie(users: map<UserId, User>, authorization: Option<string>,
                                        cookie: Option<string>, jwt: Jwt,
                                        changedPasswordAfter: (User, int) -> bool)
    requires IsBearer(authorization) && ' ' !in authorization.value
    ensures ProtectGuard(users, authorization, cookie, jwt, changedPasswordAfter) == Deny(NotLoggedInError())
  {
  }

  /** In production each error `protect` can raise is answered with a 401,
      for token-library errors that carry no store error code. */
  lemma ProtectErrorsAre401(err: ErrorRecord)
    requires || err == NotLoggedInError() || err == UserGoneError() || err == PasswordChangedError()
             || ((err.name == "JsonWebTokenError" || err.name == "TokenExpiredError") && err.code.None?)
    ensures var r := ErrorController.ErrorReply(err, "production"); r.Sent? && r.reply.statusCode == 401
  {
    if err == NotLoggedInError() || err == UserGoneError() || err == PasswordChangedError() {
      ErrorController.AppErrorAnswered(err.message, 401);
    } else {
      ErrorController.TokenErrorReplies(err);
    }
  }

  /** In production every refusal by `protect` is answered with a 401, given
      that the token library fails only with its two named errors, which
      carry no store error code. */
  lemma ProtectRefusalsAre401(users: map<UserId, User>, authorization: Option<string>, cookie: Option<string>,
                              jwt: Jwt, changedPasswordAfter: (User, int) -> bool)
    requires forall t :: jwt.verify(t).Err? ==>
      jwt.verify(t).error.name in {"JsonWebTokenError", "TokenExpiredError"} && jwt.verify(t).error.code.None?
    ensures var g := ProtectGuard(users, authorization, cookie, jwt, changedPasswordAfter);
      g.Deny? ==> var r := ErrorController.ErrorReply(g.err, "production"); r.Sent? && r.reply.statusCode == 401
  {
    var g := ProtectGuard(users, authorization, cookie, jwt, changedPasswordAfter);
    if g.Deny? {
      var token := ExtractToken(authorization, cookie);
      if Truthy(token) && jwt.verify(token.value).Err? {
        assert g.err == jwt.verify(token.value).error;
      }
      ProtectErrorsAre401(g.err);
    }
  }


  /** `restrictTo(...roles)`: a 403 exactly when the user's role is not
      among the allowed ones. */
  function RestrictTo(roles: seq<string>, user: User): (next: Next)
    ensures next == Called <==> user.role in roles
    ensures next != Called ==> next == CalledWithError(NoPermissionError())
  {
    if user.role !in roles then CalledWithError(NoPermissionError()) else Called
  }

  // ---------------------------------------------------------------------
  // Login and the session cookie

  /** The cookie `createSendToken` sets: always `httpOnly`, `secure` only in
      production, expiring the configured number of days from now. */
  function SessionCookie(token: string, env: Env, now: int): (c: Cookie)
    ensures c.name == "jwt" && c.value == token && c.options.httpOnly
    ensures c.options.secure <==> env.nodeEnv == "production"
    ensures c.options.expires == now + env.cookieExpiresInDays * MsPerDay
  {
    Cookie("jwt", token, CookieOptions(now + env.cookieExpiresInDays * MsPerDay, true, env.nodeEnv == "production"))
  }

  /** `createSendToken`: sets the session cookie and sends the token with the
      user, whose password is cleared first. */
  method CreateSendToken(user: User, statusCode: int, res: Response, jwt: Jwt, env: Env, now: int)
    modifies res`cookie, res`reply
    ensures res.cookie == Some(SessionCookie(jwt.sign(user.id), env, now))
    ensures res.reply == Some(Reply(statusCode, TokenBody(jwt.sign(user.id), WithoutPassword(user))))
    ensures res.reply.value.body.user.password.None?
  {
    var token := jwt.sign(user.id);
    var cookieOptions := CookieOptions(now + env.cookieExpiresInDays * 24 * 60 * 60 * 1000, true, false);
    if env.nodeEnv == "production" {
      cookieOptions := cookieOptions.(secure := true);
    }
    res.cookie := Some(Cookie("jwt", token, cookieOptions));
    var doc := user.(password := None);   // removes the password from the output
    res.reply := Some(Reply(statusCode, TokenBody(token, doc)));
  }

  /** The decision of `login` once the user with that email (if any) is
      known: a 400 when email or password is missing, the same 401 for an
      unknown email and for a wrong password, the user otherwise. */
  function LoginCheck(email: Option<string>, password: Option<string>, found: Option<User>,
                      correctPassword: (Option<string>, Option<string>) -> bool): (r: Result<User, ErrorRecord>)
    ensures !Truthy(email) || !Truthy(password) ==> r == Err(MissingCredentialsError())
    ensures Truthy(email) && Truthy(password) ==>
      (r.Ok? <==> found.Some? && correctPassword(password, found.value.password))
    ensures r.Ok? ==> Some(r.value) == found
    ensures Truthy(email) && Truthy(password) && r.Err? ==> r.error == IncorrectCredentialsError()
  {
    if !Truthy(email) || !Truthy(password) then Err(MissingCredentialsError())
    else if found.None? || !correctPassword(password, found.value.password) then Err(IncorrectCredentialsError())
    else Ok(found.value)
  }

  /** An unknown email and a wrong password cannot be told apart. */
  lemma LoginDoesNotRevealWhichCheckFailed(email: Option<string>, password: Option<string>, u: User,
                                           correctPassword: (Option<string>, Option<string>) -> bool)
    requires !correctPassword(password, u.password)
    ensures LoginCheck(email, password, None, correctPassword) == LoginCheck(email, password, Some(u), correctPassword)
  {
  }

  function Lookup(users: map<UserId, User>, found: Option<UserId>): Option<User>
  {
    if found.Some? && found.value in users then Some(users[found.value]) else None
  }

  /** `login`: `found` is the user `findOne({ email })` returned. The store is
      never written. */
  method Login(store: UserStore, req: Request, res: Response, jwt: Jwt,
               correctPassword: (Option<string>, Option<string>) -> bool, env: Env, now: int)
    returns (next: Next, found: Option<UserId>)
    requires store.Valid()
    modifies res`cookie, res`reply
    ensures !Truthy(req.Field("email")) || !Truthy(req.Field("password")) ==> found.None?
    ensures Truthy(req.Field("email")) && Truthy(req.Field("password")) ==>
      && (found.Some? ==> found.value in store.users && Matches(store.users[found.value], ByEmail(req.Field("email"))))
      && (found.None? ==> forall id :: id in store.users ==> !Matches(store.users[id], ByEmail(req.Field("email"))))
    ensures var r := LoginCheck(req.Field("email"), req.Field("password"), Lookup(store.users, found), correctPassword);
      && (r.Err? ==> next == CalledWithError(r.error) && res.cookie == old(res.cookie) && res.reply == old(res.reply))
      && (r.Ok? ==> next == NotCalled
                    && res.cookie == Some(SessionCookie(jwt.sign(r.value.id), env, now))
                    && res.reply == Some(Reply(200, TokenBody(jwt.sign(r.value.id), WithoutPassword(r.value)))))
  {
    var email, password := req.Field("email"), req.Field("password");
    // 1) email and password are there
    if !Truthy(email) || !Truthy(password) {
      return CalledWithError(MissingCredentialsError()), None;
    }
    // 2) the user exists and the password is correct
    found := store.FindOne(ByEmail(email));
    if found.None? || !correctPassword(password, store.users[found.value].password) {
      return CalledWithError(IncorrectCredentialsError()), found;
    }
    // 3) send the token
    CreateSendToken(store.users[found.value], 200, res, jwt, env, now);
    next := NotCalled;
  }

  // ---------------------------------------------------------------------
  // The password-reset token lifecycle

  /** The record after `createPasswordResetToken`: the issued hash is live
      until the issued expiry; nothing else changes. */
  function IssueResetToken(u: User, issue: ResetIssue): (r: User)
    ensures forall h, t :: ResetTokenLive(r, h, t) <==> h == issue.hashed && t < issue.expires
    ensures r.(passwordResetToken := u.passwordResetToken, passwordResetExpires := u.passwordResetExpires) == u
  {
    u.(passwordResetToken := Some(issue.hashed), passwordResetExpires := Some(issue.expires))
  }

  /** Both reset fields set to `undefined`: no token is live any more;
      nothing else changes. */
  function ClearResetToken(u: User): (r: User)
    ensures forall h, t :: !ResetTokenLive(r, h, t)
    ensures r.passwordResetToken.None? && r.passwordResetExpires.None?
    ensures r.(passwordResetToken := u.passwordResetToken, passwordResetExpires := u.passwordResetExpires) == u
  {
    u.(passwordResetToken := None, passwordResetExpires := None)
  }

  /** The record after `resetPassword`: the new password and confirmation in
      place and the reset token consumed. */
  function PasswordReset(u: User, password: Option<string>, passwordConfirm: Option<string>): (r: User)
    ensures r.password == password && r.passwordConfirm == passwordConfirm
    ensures forall h, t :: !ResetTokenLive(r, h, t)
    ensures r.(password := u.password, passwordConfirm := u.passwordConfirm,
               passwordResetToken := u.passwordResetToken, passwordResetExpires := u.passwordResetExpires) == u
  {
    ClearResetToken(u.(password := password, passwordConfirm := passwordConfirm))
  }

  /** A failed delivery leaves the record as if no token had ever been
      issued, with any earlier token cleared as well. */
  lemma RollbackForgetsIssue(u: User, issue: ResetIssue)
    ensures ClearResetToken(IssueResetToken(u, issue)) == ClearResetToken(u)
  {
  }

  /** With an injective hash, the issued token is the only plaintext that
      finds the user, and only before the issued expiry. */
  lemma OnlyTheIssuedTokenFindsTheUser(u: User, issue: ResetIssue, hash: string -> string, plain: string, now: int)
    requires Injective(hash) && issue.hashed == hash(issue.plain)
    ensures ResetTokenLive(IssueResetToken(u, issue), hash(plain), now) <==> plain == issue.plain && now < issue.expires
  {
  }

  /** `forgotPassword`: `found` is the user `findOne({ email })` returned. An
      unknown email gets a 404; otherwise the issued token is saved, and on a
      failed delivery both reset fields are cleared and saved again. */
  method ForgotPassword(store: UserStore, req: Request, res: Response, issue: ResetIssue, emailDelivered: bool)
    returns (next: Next, found: Option<UserId>)
    requires store.Valid()
    modifies store, res`reply
    ensures store.Valid()
    ensures found.Some? ==> found.value in old(store.users) && Matches(old(store.users)[found.value], ByEmail(req.Field("email")))
    ensures found.None? ==>
      && (forall id :: id in old(store.users) ==> !Matches(old(store.users)[id], ByEmail(req.Field("email"))))
      && next == CalledWithError(NoUserWithEmailError())
      && store.users == old(store.users) && res.reply == old(res.reply)
    ensures found.Some? && emailDelivered ==>
      && store.users == old(store.users)[found.value := IssueResetToken(old(store.users)[found.value], issue)]
      && res.reply == Some(Reply(200, MessageBody("success", "Token sent to email!")))
      && next == NotCalled
    ensures found.Some? && !emailDelivered ==>
      && store.users == old(store.users)[found.value := ClearResetToken(old(store.users)[found.value])]
      && res.reply == old(res.reply)
      && next == CalledWithError(EmailSendError())
  {
    // 1) the user with the posted email
    found := store.FindOne(ByEmail(req.Field("email")));
    if found.None? {
      return CalledWithError(NoUserWithEmailError()), found;
    }
    // 2) the reset token
    var user := IssueResetToken(store.users[found.value], issue);
    store.Save(user);
    // 3) the e-mail
    if emailDelivered {
      res.reply := Some(Reply(200, MessageBody("success", "Token sent to email!")));
      next := NotCalled;
    } else {
      user := user.(passwordResetToken := None, passwordResetExpires := None);
      store.Save(user);
      next := CalledWithError(EmailSendError());
    }
  }

  /** `resetPassword`: `found` is a user whose stored hash is the hash of the
      token in the URL and whose expiry is strictly after `now`; without one,
      a 400. On success the new password is saved, the token is consumed and
      a fresh session token is sent. */
  method ResetPassword(store: UserStore, req: Request, res: Response, jwt: Jwt, hash: string -> string,
                       env: Env, now: int) returns (next: Next, found: Option<UserId>)
    requires store.Valid()
    modifies store, res`cookie, res`reply
    ensures store.Valid()
    ensures found.None? ==>
      && LiveResetHolders(old(store.users), hash(req.tokenParam), now) == {}
      && next == CalledWithError(TokenInvalidError())
      && store.users == old(store.users) && res.cookie == old(res.cookie) && res.reply == old(res.reply)
    ensures found.Some? ==> found.value in LiveResetHolders(old(store.users), hash(req.tokenParam), now)
    ensures found.Some? ==>
      var u := PasswordReset(old(store.users)[found.value], req.Field("password"), req.Field("passwordConfirm"));
      && store.users == old(store.users)[found.value := u]
      && next == NotCalled
      && res.cookie == Some(SessionCookie(jwt.sign(found.value), env, now))
      && res.reply == Some(Reply(200, TokenBody(jwt.sign(found.value), WithoutPassword(u))))
    // the token is consumed: its holder drops out of the live holders at every time
    ensures found.Some? ==> forall t :: LiveResetHolders(store.users, hash(req.tokenParam), t)
                                        == LiveResetHolders(old(store.users), hash(req.tokenParam), t) - {found.value}
  {
    // 1) the user holding the token
    var hashedToken := hash(req.tokenParam);
    found := store.FindOne(ByLiveResetToken(hashedToken, now));
    // 2) no live token: refused
    if found.None? {
      return CalledWithError(TokenInvalidError()), found;
    }
    var user := store.users[found.value];
    user := user.(password := req.Field("password"), passwordConfirm := req.Field("passwordConfirm"));
    user := user.(passwordResetToken := None, passwordResetExpires := None);
    store.Save(user);
    // 3) log the user in
    CreateSendToken(user, 200, res, jwt, env, now);
    next := NotCalled;
  }

  /** A reset token works once: two resets with the same token, the second
      no earlier than the first, when no other user holds that hash — the
      second is refused with a 400. */
  method ResetTwice(store: UserStore, req: Request, res: Response, jwt: Jwt, hash: string -> string,
                    env: Env, now: int, later: int) returns (first: Next, second: Next)
    requires store.Valid() && now <= later
    requires forall a, b ::
               (a in store.users && b in store.users
                && store.users[a].passwordResetToken == Some(hash(req.tokenParam))
                && store.users[b].passwordResetToken == Some(hash(req.tokenParam))) ==> a == b
    modifies store, res`cookie, res`reply
    ensures second == CalledWithError(TokenInvalidError())
  {
    var found;
    first, found := ResetPassword(store, req, res, jwt, hash, env, now);
    ghost var afterFirst := store.users;
    assert LiveResetHolders(afterFirst, hash(req.tokenParam), later) == {};
    var found2;
    second, found2 := ResetPassword(store, req, res, jwt, hash, env, later);
  }

  // ---------------------------------------------------------------------
  // Changing the password of the logged-in user

  /** The guard at line 205 as written: the call to the asynchronous
      `correctPassword` is not awaited, so the guard tests a pending promise. */
  function RejectsCurrentPasswordAsWritten(check: Promise<bool>): (reject: bool)
    ensures !reject
  {
    !PromiseTruthy(check)
  }

  /** `updatePassword` as written: the current password is never checked,
      so a wrong `passwordCurrent` still replaces the password. */
  method UpdatePasswordAsWritten(store: UserStore, req: Request, res: Response, jwt: Jwt,
                                 correctPassword: (Option<string>, Option<string>) -> bool, env: Env, now: int)
    returns (next: Next)
    requires store.Valid() && req.user.Some?
    modifies store, res`cookie, res`reply
    ensures store.Valid()
    ensures next != CalledWithError(WrongCurrentPasswordError())
    ensures req.user.value.id !in old(store.users) ==>
      && next == CalledWithError(UpdateNotLoggedInError()) && store.users == old(store.users)
      && res.cookie == old(res.cookie) && res.reply == old(res.reply)
    ensures req.user.value.id in old(store.users) ==>
      var id := req.user.value.id;
      var u := old(store.users)[id].(password := req.Field("password"), passwordConfirm := req.Field("passwordConfirm"));
      && store.users == old(store.users)[id := u]
      && next == NotCalled
      && res.cookie == Some(SessionCookie(jwt.sign(id), env, now))
      && res.reply == Some(Reply(200, TokenBody(jwt.sign(id), WithoutPassword(u))))
  {
    var id := req.user.value.id;
    // 1) the user, with its password
    if id !in store.users {
      return CalledWithError(UpdateNotLoggedInError());
    }
    var user := store.users[id];
    // 2) the current password, as the source tests it
    if RejectsCurrentPasswordAsWritten(Pending(correctPassword(req.Field("passwordCurrent"), user.password))) {
      return CalledWithError(WrongCurrentPasswordError());
    }
    // 3) the new password
    user := user.(password := req.Field("password"), passwordConfirm := req.Field("passwordConfirm"));
    store.Save(user);
    // 4) log the user in
    CreateSendToken(user, 200, res, jwt, env, now);
    next := NotCalled;
  }

  /** `updatePassword` with the check awaited: a wrong current password gets
      the 401 and nothing is written; a correct one replaces the password and
      sends a fresh session token. */
  method UpdatePassword(store: UserStore, req: Request, res: Response, jwt: Jwt,
                        correctPassword: (Option<string>, Option<string>) -> bool, env: Env, now: int)
    returns (next: Next)
    requires store.Valid() && req.user.Some?
    modifies store, res`cookie, res`reply
    ensures store.Valid()
    ensures req.user.value.id !in old(store.users) ==>
      && next == CalledWithError(UpdateNotLoggedInError()) && store.users == old(store.users)
      && res.cookie == old(res.cookie) && res.reply == old(res.reply)
    ensures req.user.value.id in old(store.users)
            && !correctPassword(req.Field("passwordCurrent"), old(store.users)[req.user.value.id].password) ==>
      && next == CalledWithError(WrongCurrentPasswordError())
      && store.users == old(store.users) && res.cookie == old(res.cookie) && res.reply == old(res.reply)
    ensures req.user.value.id in old(store.users)
            && correctPassword(req.Field("passwordCurrent"), old(store.users)[req.user.value.id].password) ==>
      var id := req.user.value.id;
      var u := old(store.users)[id].(password := req.Field("password"), passwordConfirm := req.Field("passwordConfirm"));
      && store.users == old(store.users)[id := u]
      && next == NotCalled
      && res.cookie == Some(SessionCookie(jwt.sign(id), env, now))
      && res.reply == Some(Reply(200, TokenBody(jwt.sign(id), WithoutPassword(u))))
  {
    var id := req.user.value.id;
    // 1) the user, with its password
    if id !in store.users {
      return CalledWithError(UpdateNotLoggedInError());
    }
    var user := store.users[id];
    // 2) the current password, awaited
    if !correctPassword(req.Field("passwordCurrent"), user.password) {
      return CalledWithError(WrongCurrentPasswordError());
    }
    // 3) the new password
    user := user.(password := req.Field("password"), passwordConfirm := req.Field("passwordConfirm"));
    store.Save(user);
    // 4) log the user in
    CreateSendToken(user, 200, res, jwt, env, now);
    next := NotCalled;
  }

  /** The e-mail failure's error has no code of its own, yet the global
      handler answers it with a 500 in both environments. */
  lemma EmailFailureIsAnswered500(env: string)
    requires env == "development" || env == "production"
    ensures var r := ErrorController.ErrorReply(EmailSendError(), env); r.Sent? && r.reply.statusCode == 500
  {
    ErrorController.UntranslatedReplies(EmailSendError());
  }
}
