/** The request and response objects the handlers read and write, the
    `jwt` cookie and the JSON bodies they send, and what a handler passes
    to `next`. */
module Express {
  import opened Js
  import opened AppError
  import opened UserModel

  /** The options of a cookie; `secure` is `false` when it is not set. */
  datatype CookieOptions = CookieOptions(expires: int, httpOnly: bool, secure: bool)

  /** `res.cookie(name, value, options)` */
  datatype Cookie = Cookie(name: string, value: string, options: CookieOptions)

  /** The JSON bodies the handlers send. */
  datatype Body =
    | TokenBody(token: string, user: User)       // { status: 'success', token, data: { user } }
    | UserBody(updated: Option<User>)             // { status: 'success', data: { user } }
    | NoData                                     // { status: 'success', data: null }
    | MessageBody(status: string, message: string)
    | DevErrorBody(status: string, error: ErrorRecord, message: string, stack: string)

  /** `res.status(statusCode).json(body)` */
  datatype Reply = Reply(statusCode: int, body: Body)

  /** Whether a handler called `next`, and with which error. */
  datatype Next = NotCalled | Called | CalledWithError(err: ErrorRecord)

  /** The process environment the controllers read: `NODE_ENV` and
      `JWT_COOKIE_EXPIRES_IN` (a number of days). */
  datatype Env = Env(nodeEnv: string, cookieExpiresInDays: int)

  /** A request: the `Authorization` header, the `jwt` cookie, the `:token`
      route parameter and the body are the handlers' inputs; `user` and
      `paramsId` (`req.params.id`) are the fields they assign. */
  class Request {
    const authorization: Option<string>
    const jwtCookie: Option<string>
    const tokenParam: string
    const body: map<string, string>
    var user: Option<User>
    var paramsId: Option<UserId>

    constructor (authorization: Option<string>, jwtCookie: Option<string>, tokenParam: string,
                 body: map<string, string>, user: Option<User>)
      ensures this.authorization == authorization && this.jwtCookie == jwtCookie
      ensures this.tokenParam == tokenParam && this.body == body
      ensures this.user == user && paramsId.None?
    {
      this.authorization := authorization;
      this.jwtCookie := jwtCookie;
      this.tokenParam := tokenParam;
      this.body := body;
      this.user := user;
      paramsId := None;
    }

    /** `req.body[key]`, `undefined` when absent. */
    function Field(key: string): (v: Option<string>)
    {
      if key in body then Some(body[key]) else None
    }
  }

  /** A response: the cookie set, the reply sent, and `res.locals.user`. */
  class Response {
    var cookie: Option<Cookie>
    var reply: Option<Reply>
    var localsUser: Option<User>

    constructor ()
      ensures cookie.None? && reply.None? && localsUser.None?
    {
      cookie, reply, localsUser := None, None, None;
    }
  }
}
