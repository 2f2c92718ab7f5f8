/** The global error handler (controllers/errorController.js): it defaults
    the status code and status of the error it receives, then in development
    echoes the error in full and in production translates the store's and
    the token library's errors into operational errors and hides every other
    non-operational error behind a generic 500. */
module ErrorController {
  import opened Js
  import opened AppError
  import opened Express

  /** What the handler does: send a reply, send nothing (neither of the two
      known environments), or throw while translating the error (a property
      read on `undefined`, which the framework's own fallback then answers). */
  datatype HandlerOutcome = Sent(reply: Reply) | NoReply | Threw

  const DuplicateKeyCode := 11000

  /** `err.statusCode || 500`: an absent or zero code becomes 500. */
  function DefaultStatusCode(statusCode: Option<int>): (c: int)
    ensures statusCode.Some? && statusCode.value != 0 ==> c == statusCode.value
    ensures statusCode.None? || statusCode.value == 0 ==> c == 500
    ensures c != 0
  {
    if statusCode.Some? && statusCode.value != 0 then statusCode.value else 500
  }

  /** `err.status || 'error'`: an absent or empty status becomes "error". */
  function DefaultStatus(status: Option<string>): (s: string)
    ensures Truthy(status) ==> s == status.value
    ensures !Truthy(status) ==> s == "error"
    ensures s != ""
  {
    if Truthy(status) then status.value else "error"
  }

  /** The error after the two in-place defaults; nothing else is touched. */
  function Defaulted(e: ErrorRecord): (d: ErrorRecord)
    ensures d.statusCode == Some(DefaultStatusCode(e.statusCode))
    ensures d.status == Some(DefaultStatus(e.status))
    ensures d.(statusCode := e.statusCode, status := e.status) == e
  {
    e.(statusCode := Some(DefaultStatusCode(e.statusCode)), status := Some(DefaultStatus(e.status)))
  }

  /** A store cast failure becomes a 400 naming the path and the value. */
  function HandleCastErrorDB(e: ErrorRecord): (r: ErrorRecord)
    ensures r.isOperational && r.statusCode == Some(400) && r.status == Some("fail")
    ensures r.message == "Invalid error " + e.path + ": " + e.value
    ensures r.code.None?
  {
    NewAppError("Invalid error " + e.path + ": " + e.value, Some(400))
  }

  /** A duplicate-key failure becomes a 400 naming `keyValue.name` ("undefined"
      when the duplicated key is another one); reading `name` of an absent
      `keyValue` throws. */
  function HandleDuplicateFields(e: ErrorRecord): (r: Option<ErrorRecord>)
    ensures r.None? <==> e.keyValue.None?
    ensures r.Some? ==>
      && r.value.isOperational && r.value.statusCode == Some(400) && r.value.status == Some("fail")
      && r.value.message == "Duplicate field value " + NameValue(e.keyValue.value) + ". Please use another value!"
      && r.value.code.None?
  {
    match e.keyValue
    case None => None
    case Some(kv) => Some(NewAppError(DuplicateMessage(NameValue(kv)), Some(400)))
  }

  /** `keyValue.name`, printed as "undefined" when absent. */
  function NameValue(keyValue: map<string, string>): string
  {
    if "name" in keyValue then keyValue["name"] else "undefined"
  }

  function DuplicateMessage(value: string): string
  {
    "Duplicate field value " + value + ". Please use another value!"
  }

  /** A schema validation failure becomes a 400 listing every sub-error
      message, separated by single spaces; `Object.values` of an absent
      `errors` throws. */
  function HandleValidationErrorDB(e: ErrorRecord): (r: Option<ErrorRecord>)
    ensures r.None? <==> e.errors.None?
    ensures r.Some? ==>
      && r.value.isOperational && r.value.statusCode == Some(400) && r.value.status == Some("fail")
      && r.value.message == "Invalid input data. " + Join(e.errors.value, ' ')
      && r.value.errors.None?
  {
    match e.errors
    case None => None
    case Some(messages) => Some(NewAppError("Invalid input data. " + Join(messages, ' '), Some(400)))
  }

  /** A malformed or badly signed token becomes an operational 401. */
  function HandleJWTError(): (r: ErrorRecord)
    ensures r.isOperational && r.statusCode == Some(401) && r.status == Some("fail")
    ensures r.message == "Invalid token. Please log in again!" && r.code.None?
  {
    NewAppError("Invalid token. Please log in again!", Some(401))
  }

  /** An expired token becomes an operational 401. */
  function HandleJWTExpireError(): (r: ErrorRecord)
    ensures r.isOperational && r.statusCode == Some(401) && r.status == Some("fail")
    ensures r.message == "Your token has expired! Please log in again" && r.code.None?
  {
    NewAppError("Your token has expired! Please log in again", Some(401))
  }

  /** Development: the error's own code, with status, the whole error,
      message and stack. */
  function SendErrorDev(e: ErrorRecord): Reply
    requires e.statusCode.Some? && e.status.Some?
  {
    Reply(e.statusCode.value, DevErrorBody(e.status.value, e, e.message, e.stack))
  }

  /** Production: an operational error is sent with its code, status and
      message only; any other error becomes the generic 500. */
  function SendErrorProd(e: ErrorRecord): Reply
    requires e.statusCode.Some? && e.status.Some?
  {
    if e.isOperational then Reply(e.statusCode.value, MessageBody(e.status.value, e.message))
    else Reply(500, MessageBody("Error", "Something went very wrong!"))
  }

  predicate IsMappedName(name: string)
  {
    name in {"CastError", "ValidationError", "JsonWebTokenError", "TokenExpiredError"}
  }

  /** The error that reaches `sendErrorProd`, stated case by case on the
      error's name (the handler itself applies five translations in a row),
      or `None` when a translation throws. */
  function ProdError(e: ErrorRecord): (r: Option<ErrorRecord>)
    ensures r.Some? && r.value != e ==> r.value.isOperational && r.value.statusCode.Some? && r.value.status.Some?
    ensures r.None? ==> e.name != "CastError"
  {
    if e.name == "CastError" then Some(HandleCastErrorDB(e))
    else if e.code == Some(DuplicateKeyCode) && e.keyValue.None? then None
    else if e.name == "ValidationError" then
      // after a duplicate-key translation the AppError has no `errors`
      if e.code == Some(DuplicateKeyCode) then None else HandleValidationErrorDB(e)
    else if e.name == "JsonWebTokenError" then Some(HandleJWTError())
    else if e.name == "TokenExpiredError" then Some(HandleJWTExpireError())
    else if e.code == Some(DuplicateKeyCode) then HandleDuplicateFields(e)
    else Some(e)
  }

  /** The handler's whole behaviour for an error `e` in environment `env`;
      the lemmas below state the production cases one group at a time. */
  function ErrorReply(e: ErrorRecord, env: string): (r: HandlerOutcome)
    // neither environment: no reply at all
    ensures env != "development" && env != "production" ==> r == NoReply
    // development: the defaulted code, and the error echoed in full
    ensures env == "development" ==>
      r == Sent(Reply(DefaultStatusCode(e.statusCode),
                      DevErrorBody(DefaultStatus(e.status), Defaulted(e), e.message, e.stack)))
    // production never sends the error object or its stack
    ensures env == "production" && r.Sent? ==> r.reply.body.MessageBody?
  {
    var d := Defaulted(e);
    if env == "development" then Sent(SendErrorDev(d))
    else if env == "production" then
      match ProdError(d)
      case None => Threw
      case Some(x) => Sent(SendErrorProd(x))
    else NoReply
  }

  /** Production: the store's errors (a failed cast, a failed validation, a
      duplicate key) get their fixed 400 answers. */
  lemma TranslatedReplies(e: ErrorRecord)
    ensures e.name == "CastError" ==>
      ErrorReply(e, "production") == Sent(Reply(400, MessageBody("fail", "Invalid error " + e.path + ": " + e.value)))
    ensures e.name == "ValidationError" && e.code != Some(DuplicateKeyCode) ==>
      ErrorReply(e, "production") == (if e.errors.None? then Threw
        else Sent(Reply(400, MessageBody("fail", "Invalid input data. " + Join(e.errors.value, ' ')))))
    ensures !IsMappedName(e.name) && e.code == Some(DuplicateKeyCode) ==>
      ErrorReply(e, "production") == (if e.keyValue.None? then Threw
        else Sent(Reply(400, MessageBody("fail", DuplicateMessage(NameValue(e.keyValue.value))))))
  {
    var d := Defaulted(e);
    assert d.name == e.name && d.code == e.code && d.keyValue == e.keyValue && d.errors == e.errors;
    assert d.path == e.path && d.value == e.value;
  }

  /** Production: the token library's two errors get their fixed 401
      answers. */
  lemma TokenErrorReplies(e: ErrorRecord)
    ensures e.name == "JsonWebTokenError" && (e.code != Some(DuplicateKeyCode) || e.keyValue.Some?) ==>
      ErrorReply(e, "production") == Sent(Reply(401, MessageBody("fail", "Invalid token. Please log in again!")))
    ensures e.name == "TokenExpiredError" && (e.code != Some(DuplicateKeyCode) || e.keyValue.Some?) ==>
      ErrorReply(e, "production") == Sent(Reply(401, MessageBody("fail", "Your token has expired! Please log in again")))
  {
    var d := Defaulted(e);
    assert d.name == e.name && d.code == e.code && d.keyValue == e.keyValue;
  }

  /** Production, nothing to translate: an operational error passes with its
      own (defaulted) code, status and message, and every other error gets
      the generic 500; a non-operational error is answered with anything but
      500 only when it was translated. */
  lemma UntranslatedReplies(e: ErrorRecord)
    ensures !IsMappedName(e.name) && e.code != Some(DuplicateKeyCode) ==>
      ErrorReply(e, "production") == Sent(if e.isOperational
        then Reply(DefaultStatusCode(e.statusCode), MessageBody(DefaultStatus(e.status), e.message))
        else Reply(500, MessageBody("Error", "Something went very wrong!")))
    ensures var r := ErrorReply(e, "production");
      !e.isOperational && r.Sent? && r.reply.statusCode != 500 ==>
        IsMappedName(e.name) || e.code == Some(DuplicateKeyCode)
  {
    var d := Defaulted(e);
    assert d.name == e.name && d.code == e.code && d.isOperational == e.isOperational;
  }

  /** Production: the handler throws exactly when a translation reads a
      property of an absent object: the duplicate-key translation without
      `keyValue`, or the validation translation on an error without
      `errors` (which an earlier duplicate-key translation always yields). */
  lemma ThrowingReplies(e: ErrorRecord)
    ensures ErrorReply(e, "production").Threw? <==>
      e.name != "CastError" &&
      ((e.code == Some(DuplicateKeyCode) && e.keyValue.None?)
       || (e.name == "ValidationError" && (e.code == Some(DuplicateKeyCode) || e.errors.None?)))
  {
    var d := Defaulted(e);
    assert d.name == e.name && d.code == e.code && d.keyValue == e.keyValue && d.errors == e.errors;
  }

  /** In production an AppError raised by a controller is answered with its
      own code, its status class and its message. */
  lemma AppErrorAnswered(message: string, code: int)
    requires code != 0
    ensures ErrorReply(NewAppError(message, Some(code)), "production")
      == Sent(Reply(code, MessageBody(StatusClass(Some(code)), message)))
  {
    UntranslatedReplies(NewAppError(message, Some(code)));
  }

  /** A duplicate on a key other than `name` (the users' unique `email`, say)
      is reported with the word "undefined" in place of the value. */
  lemma DuplicateOnOtherKeySaysUndefined(e: ErrorRecord, key: string, v: string)
    requires !IsMappedName(e.name) && e.code == Some(DuplicateKeyCode)
    requires e.keyValue == Some(map[key := v]) && key != "name"
    ensures ErrorReply(e, "production") == Sent(Reply(400, MessageBody("fail", DuplicateMessage("undefined"))))
  {
    TranslatedReplies(e);
    assert "name" !in map[key := v];
  }

  /** The error object the framework hands to the handler; the handler
      assigns two of its fields. */
  class ErrorObject {
    var fields: ErrorRecord

    constructor (e: ErrorRecord)
      ensures fields == e
    {
      fields := e;
    }
  }

  /** The exported handler: defaults `statusCode` and `status` in place, then
      replies according to `NODE_ENV`. In production it reads the name from
      the original error, copies the error, and passes the copy through the
      five translations in order. */
  method GlobalErrorHandler(err: ErrorObject, env: string) returns (outcome: HandlerOutcome)
    modifies err
    ensures err.fields == Defaulted(old(err.fields))
    ensures outcome == ErrorReply(old(err.fields), env)
  {
    err.fields := err.fields.(statusCode := Some(DefaultStatusCode(err.fields.statusCode)));
    err.fields := err.fields.(status := Some(DefaultStatus(err.fields.status)));

    if env == "development" {
      outcome := Sent(SendErrorDev(err.fields));
    } else if env == "production" {
      var errorName := err.fields.name;
      var error := err.fields;   // { ...err }
      if errorName == "CastError" {
        error := HandleCastErrorDB(error);
      }
      if error.code == Some(DuplicateKeyCode) {
        var translated := HandleDuplicateFields(error);
        if translated.None? {
          return Threw;
        }
        error := translated.value;
      }
      if errorName == "ValidationError" {
        var translated := HandleValidationErrorDB(error);
        if translated.None? {
          return Threw;
        }
        error := translated.value;
      }
      if errorName == "JsonWebTokenError" {
        error := HandleJWTError();
      }
      if errorName == "TokenExpiredError" {
        error := HandleJWTExpireError();
      }
      outcome := Sent(SendErrorProd(error));
    } else {
      outcome := NoReply;
    }
  }
}
