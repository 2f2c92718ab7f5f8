# Tours site: authentication, authorization, user self-service and error formatting

A Dafny model of the decision logic of a tours booking web application's
controllers:

- **Authentication and authorization** (`controllers/authController.js`):
  - where the session token comes from: the `Authorization: Bearer <token>` header or the `jwt` cookie;
  - the ordered checks of the `protect` guard and of its silent variant `isLoggedIn`;
  - the role check of `restrictTo`;
  - `login` and its input and credential checks;
  - `createSendToken`: the session cookie, and the password removed from the output;
  - the password-reset token lifecycle (`forgotPassword`, `resetPassword`);
  - `updatePassword`.
- **The global error handler** (`controllers/errorController.js`):
  - defaults the status code and status of an error;
  - in development, echoes the error in full;
  - in production, turns the store's and the token library's errors into operational 400/401 errors, passes other operational errors through, and replaces every non-operational error with a generic 500.
- **The user's own routes** (`controllers/userController.js`):
  - the `filterObj` key whitelist;
  - `getMe`, `updateMe`, `deleteMe` (a soft delete) and the disabled `createUser`.

## How it is modelled

- **User collection.** A `UserStore` object holds a `map` from user id to user record.
  - `findOne` is a method that may return any matching record. The handlers that use it return the id it chose (`found`), so their contracts can name it.
  - `save` replaces the record.
  - `findByIdAndUpdate` appears as the two updates the controllers issue: a profile update and a deactivation.
- **Requests and responses.** `Request` and `Response` are objects. The handlers assign `req.user`, `req.params.id`, `res.locals.user`, the cookie and the reply, as the source does.
  - A handler returns what it passed to `next`: nothing, no error, or an error.
  - A reply is a status code with a JSON body.
- **Library calls and I/O are parameters.**
  - JWT signing and verification are a pair of functions (`Jwt`). A failed verification yields the library's error, which reaches `next` as the source's `catchAsync` forwards it.
  - The sha256 digest, `correctPassword` and `changedPasswordAfter` are function parameters. Injectivity of the digest is a hypothesis of the one lemma that needs it.
  - `createPasswordResetToken` is a value `ResetIssue`: the plaintext, the stored hash and the expiry.
  - The clock is `now`, in milliseconds.
  - E-mail delivery is the flag `emailDelivered`.
- **Error objects.** An error is a record (`ErrorRecord`).
  - An AppError is one such record: operational, with status "fail" for a 4xx code and "error" otherwise. `utils/appError.js` is not part of this model, so that record is built from how the controllers use it.
  - The global handler assigns `statusCode` and `status` in place on an `ErrorObject`.
  - In production it reads the error's name from the original, copies the record, and threads the copy through the five translations in source order.
  - `ErrorReply` restates that behaviour case by case on the error's name. The handler is proved equal to it.
- **JavaScript semantics kept explicit.**
  - `||` defaults: a status code of 0 counts as absent, and so does an empty status.
  - Truthiness: the empty string is falsy.
  - `split(' ')[1]`: no second piece gives `undefined`.
  - `join(' ')`.
  - The two property reads that throw on `undefined`: `keyValue.name` and `Object.values(err.errors)`. They give the outcome `Threw`. For example, a `ValidationError` that also carries code 11000 is first turned into an AppError with no `errors`, and the validation translation then throws.
- **Observations the model proves about the source as written.**
  - The e-mail failure in `forgotPassword` passes 500 to `next` beside the error rather than to `AppError`. The error therefore has no code, yet the handler still answers 500 (`EmailFailureIsAnswered500`).
  - A duplicate key other than `name` (the users' unique `email`, say) is reported as "Duplicate field value undefined" (`DuplicateOnOtherKeySaysUndefined`).
  - `updatePassword` answers a missing user with 403, not `protect`'s 401.

## Model

| member | source | states |
|---|---|---|
| `Js.Split` | controllers/authController.js:76 | `split(' ')` gives one piece more than there are separators, and no piece contains the separator |
| `Js.OccurrencesPositive` | controllers/authController.js:76 | the header has a second piece exactly when it contains a space |
| `Js.JoinSplit` | controllers/authController.js:76 | joining the pieces with the separator gives the header back |
| `UserModel.UserStore.FindOne` | controllers/authController.js:62 | finds some record matching the filter, or none exactly when no record matches |
| `UserModel.UserStore.Save` | controllers/authController.js:148 | the stored record becomes the document; no other record changes; ids stay consistent |
| `UserModel.UserStore.UpdateProfile` | controllers/userController.js:32 | for an update holding only `name` and `email`, an existing user gets the given values and keeps every other field; the user comes back without the password; an unknown id leaves the store unchanged and gives null |
| `UserModel.UserStore.Deactivate` | controllers/userController.js:43 | only `active` becomes false; an unknown id leaves the store unchanged |
| `UserModel.ProfileUpdated` | controllers/userController.js:32 | the name and email present in the update are set; every other field is kept |
| `UserModel.LiveResetHolders` | controllers/authController.js:178 | exactly the users whose stored hash matches and whose expiry is strictly after now |
| `AppError.NewAppError` | controllers/authController.js:59 | `new AppError(message, statusCode)` is operational, keeps the message and code, has the code's status class, and carries no store fields |
| `AppError.StatusClass` | controllers/authController.js:59 | the status is "fail" exactly for a 4xx code, "error" otherwise |
| `UserModel.WithoutPassword` | controllers/authController.js:29 | the output user has no password and is otherwise the same record |
| `ErrorController.HandleCastErrorDB` | controllers/errorController.js:3-6 | an operational 400 "fail" error "Invalid error <path>: <value>" |
| `ErrorController.HandleJWTError` | controllers/errorController.js:20 | an operational 401 "fail" error "Invalid token. Please log in again!" |
| `ErrorController.HandleJWTExpireError` | controllers/errorController.js:22 | an operational 401 "fail" error "Your token has expired! Please log in again" |
| `ErrorController.DefaultStatusCode` | controllers/errorController.js:55 | a present non-zero code is kept; an absent or zero code becomes 500 |
| `ErrorController.DefaultStatus` | controllers/errorController.js:56 | a present non-empty status is kept; otherwise "error" |
| `ErrorController.Defaulted` | controllers/errorController.js:55-56 | only `statusCode` and `status` change, to their defaults |
| `ErrorController.HandleDuplicateFields` | controllers/errorController.js:8-12 | a 400 "Duplicate field value <keyValue.name>. Please use another value!", "undefined" standing for an absent `name`; throws exactly when `keyValue` is absent |
| `ErrorController.HandleValidationErrorDB` | controllers/errorController.js:14-18 | a 400 "Invalid input data. " then every sub-error message, joined by single spaces; throws exactly when `errors` is absent |
| `ErrorController.ProdError` | controllers/errorController.js:61-68 | any translated error is operational and carries a code and a status |
| `ErrorController.ErrorReply` | controllers/errorController.js:24-73 | no reply outside development and production; in development (`sendErrorDev`) the defaulted code, with the status, the whole error, its message and its stack; production never sends the error object or the stack |
| `ErrorController.TranslatedReplies` | controllers/errorController.js:61-66 | in production a CastError is a 400 naming path and value; a ValidationError is a 400 listing its messages, or throws without them; a duplicate key 11000 is a 400 naming `keyValue.name`, or throws without `keyValue` |
| `ErrorController.TokenErrorReplies` | controllers/errorController.js:67-71 | in production JsonWebTokenError and TokenExpiredError are 401s with their fixed "log in again" messages |
| `ErrorController.UntranslatedReplies` | controllers/errorController.js:33-50 | `sendErrorProd` as reached in production: an untranslated operational error is sent with its defaulted code and status and its message only; any other untranslated error is 500 "Error" "Something went very wrong!"; a non-operational error gets a code other than 500 only when it was translated |
| `ErrorController.ThrowingReplies` | controllers/errorController.js:64-66 | in production the handler throws exactly when a duplicate key comes without `keyValue`, or a ValidationError comes without `errors` or after a duplicate-key translation, unless the error is a CastError |
| `ErrorController.AppErrorAnswered` | controllers/errorController.js:33-39 | in production a controller's AppError is answered with its own code, status class and message |
| `ErrorController.DuplicateOnOtherKeySaysUndefined` | controllers/errorController.js:8-11 | a duplicate on a key other than `name` is reported with "undefined" as the value |
| `ErrorController.GlobalErrorHandler` | controllers/errorController.js:52-73 | defaults the two fields of the error in place, and replies exactly as `ErrorReply` says, threading the copy through the five translations in source order |
| `AuthController.ExtractToken` | controllers/authController.js:74-79 | with a Bearer header the token is the header's second piece and contains no space, absent when there is none, whatever the cookie holds; without one it is the cookie exactly when the cookie is truthy |
| `AuthController.Resolve` | controllers/authController.js:85-96 | verification fails exactly when the library rejects and gives the library's error; otherwise the user is gone exactly when the id is not stored; otherwise it resolves exactly when the password was not changed after `iat`, to the stored user without the password |
| `AuthController.ProtectGuard` | controllers/authController.js:72-101 | no token gives the 401 "You are not logged in!..." whatever the store holds; access exactly when the token is there and verification, existence and password-change checks all pass; each failed check in order gives its own 401 or the library's error |
| `AuthController.Protect` | controllers/authController.js:72-101 | sets `req.user` and calls `next()` exactly when `ProtectGuard` grants; otherwise leaves `req.user` alone and passes the error |
| `AuthController.LoggedInCheck` | controllers/authController.js:104-125 | without a truthy cookie calls `next()`; an error reaches `next` exactly when verification fails, and it is the library's error (not caught); the locals user is set exactly when the cookie's checks all pass |
| `AuthController.IsLoggedIn` | controllers/authController.js:104-125 | sets `res.locals.user` and calls `next` exactly as `LoggedInCheck` says |
| `AuthController.GuardsAgreeOnCookie` | controllers/authController.js:104-125 | on a request without a Bearer header `protect` grants exactly the user `isLoggedIn` stores; a failed verification is forwarded by both, as the same library error |
| `AuthController.BearerWithoutTokenIgnoresCookie` | controllers/authController.js:74-83 | a Bearer header with no second piece gets the 401 even when a cookie is present |
| `AuthController.ProtectErrorsAre401` | controllers/authController.js:81-96 | each error `protect` can raise, including token-library errors without a store code, is answered in production with 401 |
| `AuthController.ProtectRefusalsAre401` | controllers/authController.js:81-96 | in production every refusal by `protect` is answered with 401, when the token library fails only with its two named errors |
| `AuthController.RestrictTo` | controllers/authController.js:127-136 | the 403 "You do not have permission..." exactly when the role is not among the allowed ones; `next()` otherwise |
| `AuthController.SessionCookie` | controllers/authController.js:17-24 | the `jwt` cookie is always httpOnly, secure exactly in production, and expires now + days × 24 × 60 × 60 × 1000 ms |
| `AuthController.CreateSendToken` | controllers/authController.js:15-38 | sets that cookie and sends the signed token with the user, whose password is cleared |
| `AuthController.LoginCheck` | controllers/authController.js:53-70 | 400 when email or password is missing; the same 401 "Incorrect email or password" for an unknown email and a wrong password; success exactly when a user was found and the password is correct |
| `AuthController.LoginDoesNotRevealWhichCheckFailed` | controllers/authController.js:64-66 | answers to an unknown email and to a wrong password are identical |
| `AuthController.Login` | controllers/authController.js:53-70 | looks the user up only when both fields are truthy (otherwise no user is found); a found user matches the email, and none is found only when no user has it; the answer is `LoginCheck`'s; the token is issued, with the password stripped, only on success; the store is never written |
| `AuthController.IssueResetToken` | controllers/authController.js:147-148 | the issued hash is live exactly until the issued expiry; nothing else changes |
| `AuthController.ClearResetToken` | controllers/authController.js:166-169 | both reset fields are cleared, so no token is live; nothing else changes |
| `AuthController.RollbackForgetsIssue` | controllers/authController.js:166-169 | the rollback leaves the record as if no token had been issued |
| `AuthController.OnlyTheIssuedTokenFindsTheUser` | controllers/authController.js:177-178 | with an injective hash, a plaintext finds the user exactly when it is the issued one and the expiry is strictly after now |
| `AuthController.ForgotPassword` | controllers/authController.js:138-173 | 404 for an unknown email with nothing written; on delivery the issued token is saved and "Token sent to email!" is sent; on failure both fields are cleared and saved and the e-mail error is passed on |
| `AuthController.PasswordReset` | controllers/authController.js:185-189 | the new password and confirmation are set and the token is consumed; nothing else changes |
| `AuthController.ResetPassword` | controllers/authController.js:175-194 | 400 "Token is invalid or has expired" exactly when no user holds a live token with that hash; otherwise that user gets the new password, the token is consumed, so the user leaves the live holders at every time, and a fresh session token is sent |
| `AuthController.ResetTwice` | controllers/authController.js:175-189 | a token works once: when at most one user holds that token hash, a second reset with the same token, no earlier than the first, gets the 400 |
| `AuthController.RejectsCurrentPasswordAsWritten` | controllers/authController.js:205 | the un-awaited check never rejects |
| `AuthController.UpdatePasswordAsWritten` | controllers/authController.js:196-218 | as written: 403 with nothing written when the user is gone; otherwise the password is replaced and a session token sent with its session cookie whatever `passwordCurrent` is; the 401 never happens; on the 403 no cookie or reply is set |
| `AuthController.UpdatePassword` | controllers/authController.js:196-218 | the awaited check: 403 with nothing written, no cookie and no reply when the user is gone; 401 "Your current password is wrong." with nothing written for a wrong current password; otherwise the new password is saved and a fresh token sent |
| `AuthController.EmailFailureIsAnswered500` | controllers/authController.js:171 | the e-mail error has no code of its own, yet it is answered with 500 in both environments |
| `UserController.FilterObj` | controllers/userController.js:6-15 | a new object holding exactly the keys in both the object and the whitelist, each with its original value |
| `UserController.FilteredIdempotent` | controllers/userController.js:6-15 | filtering the result again with the same whitelist gives the same result |
| `UserController.FilteredIsSubmap` | controllers/userController.js:6-15 | the result adds no key and changes no value |
| `UserController.GetMe` | controllers/userController.js:17-20 | `req.params.id` becomes the logged-in user's id, then `next()` |
| `UserController.UpdateMe` | controllers/userController.js:22-40 | 400 "This route is not for password update..." with nothing written when `password` or `passwordConfirm` is truthy; otherwise only the filtered name and email are written and a 200 sends the updated user |
| `UserController.UpdateMeWritesOnlyNameAndEmail` | controllers/userController.js:28-32 | whatever the body holds, the update sets at most name and email, to the posted values |
| `UserController.DeleteMe` | controllers/userController.js:42-49 | only `active` becomes false and no user is removed (a soft delete); a 204 with no data |
| `UserController.CreateUser` | controllers/userController.js:52-57 | always a 500 pointing to `/signup` |

## Findings

| source | as written | input that shows it | evidently intended | confidence | as-written member | corrected member |
|---|---|---|---|---|---|---|
| controllers/authController.js:205 | `!(user.correctPassword(...))` is not awaited. The call returns a pending promise, which is truthy, so the guard never rejects and any `passwordCurrent` lets the password be replaced. | PATCH `/updateMyPassword` for an existing logged-in user, with a wrong `passwordCurrent` or none | await the check, as `login` does at line 64, and answer 401 "Your current password is wrong." | medium, not executed (`correctPassword` lives in models/userModel.js, which is not part of this model; that it is asynchronous is inferred from the `await` at line 64) | `AuthController.UpdatePasswordAsWritten` | `AuthController.UpdatePassword` |

## Left out

- `signup`: the record it creates is built by the schema (defaults such as the role, date casting, the password-confirmation validator). models/userModel.js is not part of this model.
- `signToken`, JWT verification, bcrypt, `changedPasswordAfter`, `createPasswordResetToken`, sha256 and `sendEmail` are not re-implemented. They are parameters, as described above.
- Mongoose internals:
  - schema validation (with `runValidators`, the confirmation match, the unique index). The saves in `resetPassword` and `updatePassword` and the update in `updateMe` therefore always succeed in the model, so these handlers have no validation-failure path: a mismatched `passwordConfirm` is written, and in `resetPassword` the token is consumed instead of staying live;
  - the pre-save hooks (password hashing, clearing `passwordConfirm`, setting `passwordChangedAt`);
  - any pre-find filter on inactive users;
  - casting of query values.
  The store keeps each field as the controller assigned it. `findOne({ email: undefined })` matches no user here.
- Request bodies map names to strings. Non-string JSON values are not modelled, and this affects truthiness and matching.
- `resetURL` and the e-mail text (protocol, host, message) are not modelled. Only the delivery outcome is.
- `catchAsync`, promises and scheduling are not modelled. Each handler is one sequential step whose outcome is its reply or what it passed to `next`.
- The framework's own answer after the error handler throws (`Threw`) is not modelled. Neither is the logging of production errors.
- `RestrictTo`, `GetMe`, `UpdateMe`, `DeleteMe` and both `UpdatePassword` methods require `req.user` to be set, as `protect` does before them. The source would throw on an unset `req.user`.
- The stack trace of an AppError is runtime data, left empty.
- `app.js`, `controllers/viewsController.js` and the CRUD handler factory behind `getAllUsers`, `getUser`, `updateUser` and `deleteUser` are not part of this model.
- `ErrorController.AppErrorAnswered`, `ErrorController.UntranslatedReplies`: the production copy `{ ...err }` is modelled as a copy of the whole record. A JavaScript spread copies only own enumerable properties, and an `Error`'s `message` and `stack` are normally not enumerable. What the real spread keeps (and so whether an AppError passed through untranslated reaches the client with its message) is not modelled.
- `AuthController.SessionCookie`: `JWT_COOKIE_EXPIRES_IN` is taken to be a whole number of days. JavaScript converts the environment string to a floating-point number, and a fractional or non-numeric value is not modelled.
