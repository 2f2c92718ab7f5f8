/** The error objects that reach the global error handler, and the
    operational error that the controllers raise (utils/appError.js is not
    part of this model; its record is built from how the controllers use it). */
module AppError {
  import opened Js

  /** An error object: its name and message, the two fields the handler
      defaults, the operational flag, and the fields that the store's and
      the token library's errors carry (`code`, `path`, `value`, `keyValue`,
      the messages of `errors`). An absent flag is `false`; an absent
      `path` or `value` prints as the text "undefined". */
  datatype ErrorRecord = ErrorRecord(
    name: string,
    message: string,
    stack: string,
    statusCode: Option<int>,
    status: Option<string>,
    isOperational: bool,
    code: Option<int>,
    path: string,
    value: string,
    keyValue: Option<map<string, string>>,
    errors: Option<seq<string>>)

  /** The status class of a code: "fail" for 4xx, "error" otherwise
      (also when no code was given). */
  function StatusClass(statusCode: Option<int>): (status: string)
    ensures status == "fail" <==> statusCode.Some? && 400 <= statusCode.value < 500
    ensures status == "fail" || status == "error"
  {
    if statusCode.Some? && 400 <= statusCode.value < 500 then "fail" else "error"
  }

  /** `new AppError(message, statusCode)`: an operational error. The stack
      trace is runtime data and is left empty here. */
  function NewAppError(message: string, statusCode: Option<int>): (e: ErrorRecord)
    ensures e.isOperational && e.message == message && e.statusCode == statusCode
    ensures e.status == Some(StatusClass(statusCode))
    ensures e.code.None? && e.keyValue.None? && e.errors.None?
  {
    ErrorRecord(
      name := "Error", message := message, stack := "",
      statusCode := statusCode, status := Some(StatusClass(statusCode)),
      isOperational := true, code := None, path := "undefined", value := "undefined",
      keyValue := None, errors := None)
  }
}
