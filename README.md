# Sign-up, sign-in and error handling of the pirate_tales back end, in Dafny

This project models the authentication core of a small Express/Mongoose back end:

- **Sign-up and sign-in handlers** (`src/controllers/authController.ts`). Each runs guard checks with early returns against the user store. Sign-up makes one insertion at the end (`Auth.UserStore.SignUp`, specified by `Auth.SignUpSpec`). Sign-in only reads (`Auth.SignIn`).
- **User schema** (`src/models/userModel.ts`). This covers the field rules: setters (`trim`, `lowercase`), validators (required, length bounds, `isEmail`, password confirmation, role enum) and defaults. It also covers the two `pre('save')` hooks, written as methods of the document class `UserModel.UserDocument`, and the `select: false` projection of the password. `comparePassword` is modelled too. `UserModel.Create` is what `User.create` does with these rules.
- **Central error handler** (`src/controllers/errorController.ts`). It defaults `statusCode` and `status` in place on the error object (`Errors.CustomError`). In development it sends every detail. In production it remaps cast errors and token errors, sends operational errors as they are, and replaces every other error with a generic 500 (`Errors.ErrorController`, specified by `Errors.ErrorResponse`).

The user store is a sequence of stored users (`UserModel.UserRecord`). A request body is a record of optional strings. An optional string is "given" when it is present and not empty, which is JavaScript truthiness. A handler either replies itself (`Auth.Outcome.Respond`) or calls `next(err)` (`Auth.Outcome.Next`). `Errors.ErrorResponse` is the response that `errorController` would make of such an error, once it is mounted as the app's error middleware (see the first assumption below).

Some things are parameters of the model:
- The foreign functions `bcrypt.hash`, `bcrypt.compare` and `validator.isEmail` are the arbitrary total functions in `UserModel.Libraries`.
- Clock readings are `Time` parameters. A sign-up has two instants. `built` is when the document is constructed; the `Date.now` defaults read the clock then. `saved` is when the first `pre('save')` hook runs `new Date()`, after validation. The model passes them separately and does not assume any order between them.
- `NODE_ENV` is the `mode` / `nodeEnv` parameter.

Assumptions about code that is not part of this model:
- `errorController` is assumed to be mounted as the app's error middleware. The shown `src/app.ts` does not mount it, and neither route file does. As written, every `next(err)` of the handlers reaches Express's default final handler. That handler sends an HTML page, takes the code from `err.statusCode`, and includes the stack outside production. The model does not describe that handler.
- `AppError` (in `src/utils`) is not part of this model. `Errors.AppError` assumes the usual shape of that class: `new AppError(message, statusCode)` is an operational error named "Error", with that message and code, and with status "fail" for a 4xx code and "error" otherwise.
- Mongoose casts a query filter through the schema's setters before matching (`Auth.CastFilter`). So the existence check and the sign-in lookup compare the trimmed, lower-cased email and the trimmed user name.
- `findOne` returns the first matching user in store order.
- Validation runs before the `pre('save')` hooks. It reports, for each path in schema order, the first validator that fails (required first). The error is named "ValidationError" and its message is "User validation failed: " followed by `path: message` items separated by ", ".

The code is modelled as it is written. Where it differs from what one might expect of such a service, the model follows the code:
- The existence check in sign-up is conjunctive. It blocks only a user with the same email AND the same user name (`Auth.SignUpPartialMatchDoesNotBlock`).
- The 201 reply of sign-up carries the created document. That document includes the hashed password and the emptied confirmation (`Auth.SignUpAddsOneUser`).
- An unknown email at sign-in gets 404 "User not found", not the 401 message. The two failures can therefore be told apart.
- The code issues no session token and sets no cookie.
- `errorController` is defined but mounted nowhere (`src/app.ts:8-27`). The error responses the model states (`Errors.ErrorResponse`, `Auth.SignUpFailureInProduction`) are those of the assumed mounting, not of the app as shipped.
- A stored user no longer passes the schema's own validation: its `password_confirm` is "", which `required` rejects (`UserModel.StoredRecordFailsRevalidation`).

## Model

| member | source | states |
|---|---|---|
| `Strings.Trim` | src/models/userModel.ts:12 | the trimmed value is a contiguous piece of the input with only JavaScript whitespace around it, and it neither starts nor ends with whitespace |
| `Strings.TrimIgnoresSurroundingWhitespace` | src/models/userModel.ts:12 | whitespace before and after a value does not change what trimming gives |
| `Strings.TrimIdempotent` | src/models/userModel.ts:12 | trimming a trimmed value changes nothing |
| `Strings.ToLower` | src/models/userModel.ts:21 | lower-casing keeps the length, turns each upper-case ASCII letter into its lower-case letter (32 code points on) and keeps every other character |
| `Strings.TrimToLowerCommute` | src/models/userModel.ts:20-21 | the `trim` and `lowercase` setters can be applied in either order |
| `Strings.Utf16Length` | src/models/userModel.ts:13-14 | the JavaScript `length` that `minlength`/`maxlength` test counts UTF-16 units: between the number of characters and twice that, and equal to it for text inside the Basic Multilingual Plane |
| `Strings.Utf16LengthAppend` | src/models/userModel.ts:13-14 | the UTF-16 length of a concatenation is the sum of the lengths, and one character has 2 units outside the Basic Multilingual Plane and 1 inside it; together these fix the length of every string |
| `UserModel.NormalizeEmail` | src/models/userModel.ts:16-21 | a stored email has no surrounding whitespace and no upper-case letter |
| `UserModel.NormalizeEmailIsTrimmedLowerCase` | src/models/userModel.ts:20-21 | a stored email is the lower-cased input with only whitespace removed around it |
| `UserModel.NormalizeEmailIgnoresCaseAndSpace` | src/models/userModel.ts:20-21 | spellings of an address that differ in letter case or in surrounding whitespace are stored as the same email |
| `UserModel.NormalizeEmailIdempotent` | src/models/userModel.ts:20-21 | normalizing a stored email again gives the same email |
| `UserModel.UserNameError` | src/models/userModel.ts:8-15 | the (trimmed) user name passes exactly when it is present and 3 to 20 UTF-16 units long |
| `UserModel.EmailError` | src/models/userModel.ts:16-23 | the (normalized) email passes exactly when it is present, non-empty and accepted by `isEmail` |
| `UserModel.PasswordError` | src/models/userModel.ts:24-28 | the password passes exactly when it is present and 8 to 20 UTF-16 units long |
| `UserModel.PasswordConfirmError` | src/models/userModel.ts:31-39 | the confirmation passes exactly when it is present, non-empty and equal to the password |
| `UserModel.RoleError` | src/models/userModel.ts:53-57 | the role passes exactly when it is "user" or "admin" |
| `UserModel.Validate` | src/models/userModel.ts:8-57 | a document has no validation error exactly when every path's validators pass; errors name only schema paths |
| `UserModel.ValidationError` | src/controllers/authController.ts:41-43 | the error a failed `User.create` throws into the handler's `catch` is non-operational and has no status code or status |
| `UserModel.Create` | src/models/userModel.ts:6-112 | creating a user succeeds exactly when all four field rules hold; the stored user has the trimmed name, the normalized email, `Hash(password, 12)`, an empty confirmation, role "user", null reset token, reset expiry and game state, the construction instant in the dates the defaults set and the save instant in `updated_at`; a failure is a non-operational validation error |
| `UserModel.StoredRecordFailsRevalidation` | src/models/userModel.ts:33 | the emptied confirmation of a stored user fails the `required` rule of `password_confirm`, so the stored user fails validation |
| `UserModel.DefaultExtras` | src/models/userModel.ts:41-85 | a new document's reset token, reset expiry and game state are null, and its other dates are the construction instant |
| `UserModel.Read` | src/models/userModel.ts:29 | the password appears in a read exactly when it is selected, and then it is the stored one; every other field is read as stored |
| `UserModel.ComparePassword` | src/models/userModel.ts:114-119 | `comparePassword` returns a promise settling to bcrypt's verdict, not the verdict itself |
| `UserModel.UserDocument.constructor` | src/models/userModel.ts:8-85 | a new document holds the trimmed user name, the normalized email, the given password and confirmation, the defaults at `now`, and counts its password as modified when one was given |
| `UserModel.UserDocument.StampUpdatedAt` | src/models/userModel.ts:93-96 | the first hook sets `updated_at` to the clock reading and nothing else |
| `UserModel.UserDocument.HashPasswordIfModified` | src/models/userModel.ts:99-112 | a modified password becomes `Hash(plaintext, 12)` and the confirmation becomes ""; an unmodified password and its confirmation stay as they are |
| `UserModel.UserDocument.Save` | src/models/userModel.ts:92-112 | an invalid document is left unchanged and the validation error returned; a valid one gets both hooks in order, stops counting its password as modified, and is returned as the saved user |
| `Errors.HandleCastErrorDB` | src/controllers/errorController.ts:4-7 | a cast error becomes an operational 400 "fail" error whose message is `Invalid <path>: <value>.` |
| `Errors.HandleJWTError` | src/controllers/errorController.ts:9-10 | a token error becomes the operational 401 "Invalid token. Please log in again!" |
| `Errors.DefaultCode` | src/controllers/errorController.ts:50 | `statusCode || 500`: a missing or zero code becomes 500, any other is kept, and the result is never 0 |
| `Errors.DefaultStatus` | src/controllers/errorController.ts:51 | `status || 'error'`: a missing or empty status becomes "error", any other is kept |
| `Errors.WithDefaults` | src/controllers/errorController.ts:50-51 | a missing or zero status code becomes 500 and a missing or empty status becomes "error"; values already there, and every other field, are kept |
| `Errors.SendErrorDev` | src/controllers/errorController.ts:12-19 | the development body carries the error object itself, its status, its message and its stack; the code is the error's own non-zero code, or 500 |
| `Errors.Remap` | src/controllers/errorController.ts:58-60 | a cast error becomes `handleCastErrorDB`'s error, either token error becomes `handleJWTError`'s, any other error is kept, and no remapped name is left for a later `if` to catch |
| `Errors.SendErrorProd` | src/controllers/errorController.ts:21-40 | a production body never holds the error object or its stack; a non-operational error always gives 500 with the generic message |
| `Errors.ErrorResponse` | src/controllers/errorController.ts:42-64 | the content type is always JSON; something is sent exactly in development and production mode; production bodies never carry the error or its stack; a sent status is never 0 |
| `Errors.DevelopmentSendsEverything` | src/controllers/errorController.ts:12-19 | in development the status is the defaulted code, and the body has the defaulted status, the error, its message and its stack |
| `Errors.ProductionCastError` | src/controllers/errorController.ts:55-62 | in production a `CastError` is answered with 400, status "fail" and `Invalid <path>: <value>.` |
| `Errors.ProductionTokenErrors` | src/controllers/errorController.ts:59-60 | in production any two `JsonWebTokenError`/`TokenExpiredError` errors give the same response: 401 "Invalid token. Please log in again!" |
| `Errors.ProductionOperational` | src/controllers/errorController.ts:23-27 | in production an operational error is sent with its own code, status and message only |
| `Errors.ProductionNonOperational` | src/controllers/errorController.ts:30-38 | in production every non-operational error gives 500 `{status: "error", message: "Something went very wrong!"}`, whatever its code and message |
| `Errors.OtherModesSendNothing` | src/controllers/errorController.ts:48-63 | with any other mode only the content-type header is set and nothing is sent |
| `Errors.ProductionAppError` | src/controllers/errorController.ts:24-27 | an application error with a non-zero code reaches a production client with exactly its code, its status text and its message |
| `Errors.ErrorController` | src/controllers/errorController.ts:42-64 | the handler leaves the error object with its fields defaulted and produces the response `ErrorResponse` gives for the mode and the original error |
| `Auth.FindIndex` | src/controllers/authController.ts:13 | the scan behind `findOne` gives the position of the first matching user, or nothing when no user matches |
| `Auth.CastFilterIsStoredForm` | src/controllers/authController.ts:13 | the query casting `Auth.CastFilter` keeps the filter's keys and which of them are given, and leaves values in stored form, so casting again changes nothing |
| `Auth.SettersIdempotent` | src/models/userModel.ts:12-21 | running the email and user-name setters a second time changes nothing |
| `Auth.FindOne` | src/controllers/authController.ts:13 | the lookup finds nothing exactly when no stored user matches the cast filter; otherwise it gives the first match, with the password exactly when selected |
| `Auth.ConflictLookup` | src/controllers/authController.ts:13 | for a complete request the existence lookup finds a user exactly when one has both its email and its user name |
| `Auth.CreateAndStore` | src/controllers/authController.ts:28-40 | a failed creation passes the validation error on and stores nothing; a created user is appended and sent back with 201 "success" |
| `Auth.SignUpSpec` | src/controllers/authController.ts:5-44 | every failure leaves the store unchanged and is one of the two 400s, the 409 or a validation error; a reply is a 201 for a complete request and appends exactly the user it carries |
| `Auth.UserStore.SignUp` | src/controllers/authController.ts:5-44 | the handler's outcome and the new store are those of `SignUpSpec` on the old store |
| `Auth.SignUpRejectsMissingFields` | src/controllers/authController.ts:15-17 | a request missing any of the four fields gets 400 "Please provide all fields" and the store is unchanged |
| `Auth.SignUpRejectsMismatch` | src/controllers/authController.ts:20-22 | a complete request whose password and confirmation differ gets 400 "Passwords do not match" and the store is unchanged |
| `Auth.SignUpChecksFieldsFirst` | src/controllers/authController.ts:13-26 | an incomplete request that also collides with a stored user gets the missing-fields 400, never the 409 |
| `Auth.SignUpConflictIff` | src/controllers/authController.ts:24-26 | a complete, consistent request gets 409 "User already exists" exactly when a stored user has both its email and its user name; the store is then unchanged |
| `Auth.SignUpPartialMatchDoesNotBlock` | src/controllers/authController.ts:13 | when no stored user has both the email and the user name, sign-up ends as creating the user ends, even if some user shares one of them |
| `Auth.SignUpAddsOneUser` | src/controllers/authController.ts:28-40 | when all checks pass and the user is valid, one user is appended, with the normalized email, the trimmed name, the hashed password and an empty confirmation, and the 201 reply carries it |
| `Auth.SignUpInvalidUserNotStored` | src/controllers/authController.ts:28-43 | a request that passes the guards but breaks a schema rule is passed on as the validation error, and nothing is stored |
| `Auth.SignUpFailureInProduction` | src/controllers/authController.ts:15-26 | in production a failed sign-up would reach the client as 400, 409 or 500, never with a stack, once `errorController` is mounted as the error middleware |
| `Auth.CheckPassword` | src/controllers/authController.ts:64 | the value `signIn` tests is a promise, so it is always truthy; awaited, it is bcrypt's verdict on the password against the user's digest |
| `Auth.SignIn` | src/controllers/authController.ts:46-76 | a successful sign-in is always 200 "success" "Login successful" |
| `Auth.SignInRejectsMissingFields` | src/controllers/authController.ts:54-56 | a sign-in missing the email or the password gets 400 "Please provide all fields" |
| `Auth.SignInUnknownEmail` | src/controllers/authController.ts:58-62 | a complete sign-in gets 404 "User not found" exactly when no stored user has its email |
| `Auth.SignInIgnoresPassword` | src/controllers/authController.ts:64-72 | as written, every sign-in whose email is found gets 200, whatever the password and whatever bcrypt says |
| `Auth.SignInNever401` | src/controllers/authController.ts:66-68 | as written, no sign-in is ever answered with 401 |
| `Auth.SignInWrongPasswordWitness` | src/controllers/authController.ts:64 | a concrete store and request where bcrypt rejects the password and the sign-in still succeeds |
| `Auth.SignInAwaited` | src/controllers/authController.ts:64-68 | with the `await`, a successful sign-in is still the 200 "Login successful" |
| `Auth.SignInAwaitedChecksPassword` | src/controllers/authController.ts:64-72 | with the `await`, the first user with the email logs in exactly when bcrypt accepts the password against that user's digest, and otherwise gets 401 "Invalid email or password" |
| `Auth.SignUpThenSignIn` | src/controllers/authController.ts:28-72 | after a successful sign-up with a new email, the awaited sign-in with the same email and password succeeds, provided bcrypt accepts a password against its own digest |

## Findings

| source | as written | input that shows it | evidently intended | confidence | as-written member | corrected member |
|---|---|---|---|---|---|---|
| src/controllers/authController.ts:64 | `comparePassword` is async and its result is not awaited, so `isPasswordMatch` is a promise, which is always truthy; the 401 branch at lines 66-68 can never be taken | a store with user `a@x.com` and a sign-in `{email: "a@x.com", password: "wrong"}` that bcrypt rejects: the reply is 200 "Login successful" | `await` the comparison, so a rejected password gets 401 "Invalid email or password" | high; not executed | `Auth.SignInIgnoresPassword` | `Auth.SignInAwaitedChecksPassword` |

## Left out

- `AppError` (`src/utils`) is not part of this model. `Errors.AppError` and `Errors.StatusText` state the assumed behaviour, described above.
- Unique indexes on `user_name` and `email` are not modelled. So a user who shares only one of the two fields is stored beside the existing one. In the real system the duplicate-key error would reject it.
- The race between the existence check and the insertion is not modelled, nor are the promise semantics of the handlers beyond the one un-awaited promise. These are concurrency behaviours; the model handles one request at a time.
- Database failures, and `bcrypt.hash` rejecting, are not modelled. `findOne` and `create` never throw, and the hash is a total function. The only error that reaches a handler's `catch` in the model is the validation error.
- The object spread `{ ...err }` is modelled as a copy of every field. In JavaScript it copies only own enumerable properties. It therefore drops the prototype's `name` (of a Mongoose `CastError`, for instance) and the non-enumerable `message` and `stack`. In the running program, the cast-error remapping and the production message of an application error may therefore not appear as modelled.
- Express's default final handler, which the shown app uses because `errorController` is not mounted, is not modelled. The model describes the responses of `errorController` only.
- Mongoose drops a filter key whose value is undefined. In the model such a key matches no user (`Auth.Matches`). Both handlers look up users only after their guards, so no outcome depends on this.
- Console logging is a side effect and is not modelled.
- Real clock values are not modelled; every time is a parameter. The four `Date.now` defaults (`password_changed_at`, `last_resource_update`, `created_at`, `updated_at`) are separate clock readings in the code. The model gives all four the one construction instant `built`. The code's `created_at <= updated_at` relation after a save depends on the clock, and the model does not state it.
- `UserModel.Libraries.hash` is a deterministic function of the password and the salt rounds. bcrypt draws a random salt for each hash, so two hashes of one password differ in the real system. This randomness is not modelled. Nothing proved here compares two digests.
- Stack contents are not modelled. An error record carries whatever stack it was given, and the model gives an application error (`Errors.AppError`) no stack.
- `Strings.ToLower` maps only ASCII letters. JavaScript's `toLowerCase` is defined for all of Unicode, and that mapping is not modelled.
- Request fields are strings or absent. Other JSON values (numbers, booleans, objects, `null`) are not modelled, and neither is their truthiness.
- `NaN` status codes are not modelled. The `|| 500` default is modelled for a missing code and for 0.
- Mongoose's `_id`, `__v`, `toJSON` and the `isNew` flag are not modelled. Neither is its choice of which paths to validate when a loaded document is saved again: `UserModel.UserDocument.Save` validates every path, as for a new document.
- `Auth.FindOne` returns the first match in store order, where MongoDB promises no particular order. Every property proved here depends only on whether the lookup finds a match, except `Auth.SignInAwaitedChecksPassword`, which names the user found.
- `src/controllers/userController.ts`, the routes, `app.ts` and `server.ts` are not modelled. They are routing, middleware and start-up code with no decision of their own.
- Session tokens, cookies and password reset are not modelled, because no code for them exists.
