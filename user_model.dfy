/** The user schema: the field rules (setters, validators, defaults), the two `pre('save')`
    hooks, the password projection and `comparePassword`. */
module UserModel {
  import opened Common
  import opened Strings
  import opened Errors

  const SALT_ROUNDS: nat := 12
  const USER_NAME_MIN_LENGTH := 3
  const USER_NAME_MAX_LENGTH := 20
  const PASSWORD_MIN_LENGTH := 8
  const PASSWORD_MAX_LENGTH := 20
  const DEFAULT_ROLE := "user"
  const ADMIN_ROLE := "admin"

  const USER_NAME_REQUIRED := "Please provide a username"
  const USER_NAME_TOO_SHORT := "Username must be at least 3 characters long"
  const USER_NAME_TOO_LONG := "Username must be less than 20 characters long"
  const EMAIL_REQUIRED := "Please provide an email"
  const EMAIL_INVALID := "Please provide a valid email"
  const PASSWORD_REQUIRED := "Please provide a password"
  const PASSWORD_TOO_SHORT := "Password must be at least 8 characters long"
  const PASSWORD_TOO_LONG := "Password must be less than 20 characters long"
  const PASSWORD_CONFIRM_REQUIRED := "Please confirm your password"

  /** The foreign functions the schema calls: `bcrypt.hash(plaintext, rounds)`,
      `bcrypt.compare(candidate, digest)` and `validator.isEmail`. */
  datatype Libraries = Libraries(
    hash: (string, nat) -> string,
    compare: (string, string) -> bool,
    isEmail: string -> bool)

  /** Game state the authentication code never interprets, held as its JSON text. */
  datatype GameData = GameData(json: string)

  /** The fields the schema only ever fills with defaults. */
  datatype Extras = Extras(
    password_changed_at: Time,
    password_reset_token: Option<string>,
    password_reset_expires: Option<Time>,
    cave: Option<GameData>,
    resources: Option<GameData>,
    ship: Option<GameData>,
    reputation: Option<GameData>,
    last_resource_update: Time,
    created_at: Time)

  /** The defaults of a new document created at `now`: the nullable fields are null, the dates are `now`. */
  function DefaultExtras(now: Time): (x: Extras)
    ensures NullDefaults(x)
    ensures x.password_changed_at == now && x.last_resource_update == now && x.created_at == now
  {
    Extras(now, None, None, None, None, None, None, now, now)
  }

  predicate NullDefaults(x: Extras) {
    && x.password_reset_token.None? && x.password_reset_expires.None?
    && x.cave.None? && x.resources.None? && x.ship.None? && x.reputation.None?
  }

  /** A stored user. */
  datatype UserRecord = UserRecord(
    user_name: string,
    email: string,
    password: string,
    password_confirm: string,
    role: string,
    extras: Extras,
    updated_at: Time)

  /** A user as a query returns it: the password is there only when it was selected. */
  datatype UserView = UserView(
    user_name: string,
    email: string,
    password: Option<string>,
    password_confirm: string,
    role: string,
    extras: Extras,
    updated_at: Time)

  /** The projection of `select: false` on the password: it is left out of ordinary reads and
      appears only with `select("+password")`; every other field is read as stored. */
  function Read(u: UserRecord, selectPassword: bool): (v: UserView)
    ensures v.password.Some? <==> selectPassword
    ensures v.password.Some? ==> v.password.value == u.password
    ensures v.user_name == u.user_name && v.email == u.email && v.password_confirm == u.password_confirm
    ensures v.role == u.role && v.extras == u.extras && v.updated_at == u.updated_at
  {
    UserView(u.user_name, u.email, if selectPassword then Some(u.password) else None,
             u.password_confirm, u.role, u.extras, u.updated_at)
  }

  /** The fields a new user is created from; any of them may be missing. */
  datatype UserInput = UserInput(
    email: Option<string>,
    user_name: Option<string>,
    password: Option<string>,
    password_confirm: Option<string>)

  /** The `trim` and `lowercase` setters of the email path: the result has no surrounding
      whitespace and no upper-case letter (`NormalizeEmailIsTrimmedLowerCase` relates it to `s`). */
  function NormalizeEmail(s: string): (r: string)
    ensures r == [] || (!IsJsWhitespace(r[0]) && !IsJsWhitespace(r[|r| - 1]))
    ensures forall i :: 0 <= i < |r| ==> !IsAsciiUpper(r[i])
  {
    TrimToLowerCommute(s);
    ToLower(Trim(s))
  }

  /** A stored email is the lower-cased input with only whitespace removed around it. */
  lemma NormalizeEmailIsTrimmedLowerCase(s: string)
    ensures exists i :: PieceWithWhitespaceAround(ToLower(s), i, NormalizeEmail(s))
  {
    TrimToLowerCommute(s);
    var r := Trim(ToLower(s));
    var i :| PieceWithWhitespaceAround(ToLower(s), i, r);
    assert NormalizeEmail(s) == r;
  }

  /** Two spellings of an address that differ only in letter case and in surrounding whitespace
      are stored as the same email. */
  lemma NormalizeEmailIgnoresCaseAndSpace(a: string, s: string, b: string)
    requires forall k :: 0 <= k < |a| ==> IsJsWhitespace(a[k])
    requires forall k :: 0 <= k < |b| ==> IsJsWhitespace(b[k])
    ensures NormalizeEmail(a + s + b) == NormalizeEmail(s)
    ensures NormalizeEmail(ToLower(s)) == NormalizeEmail(s)
  {
    TrimIgnoresSurroundingWhitespace(a, s, b);
    TrimToLowerCommute(s);
    ToLowerIdempotent(Trim(s));
  }

  /** Normalizing a stored email again gives the stored email. */
  lemma {:induction false} NormalizeEmailIdempotent(s: string)
    ensures NormalizeEmail(NormalizeEmail(s)) == NormalizeEmail(s)
  {
    var t := Trim(s);
    TrimToLowerCommute(ToLower(t));
    ToLowerIdempotent(t);
    TrimToLowerCommute(t);
    TrimIdempotent(s);
  }

  /** The first failing validator of `user_name` (required, minlength, maxlength), run on the trimmed value. */
  function UserNameError(v: Option<string>): (m: Option<string>)
    ensures m.None? <==> v.Some? && USER_NAME_MIN_LENGTH <= Utf16Length(v.value) <= USER_NAME_MAX_LENGTH
  {
    if !Truthy(v) then Some(USER_NAME_REQUIRED)
    else if Utf16Length(v.value) < USER_NAME_MIN_LENGTH then Some(USER_NAME_TOO_SHORT)
    else if Utf16Length(v.value) > USER_NAME_MAX_LENGTH then Some(USER_NAME_TOO_LONG)
    else None
  }

  /** The first failing validator of `email` (required, `isEmail`), run on the normalized value. */
  function EmailError(v: Option<string>, isEmail: string -> bool): (m: Option<string>)
    ensures m.None? <==> v.Some? && v.value != "" && isEmail(v.value)
  {
    if !Truthy(v) then Some(EMAIL_REQUIRED)
    else if !isEmail(v.value) then Some(EMAIL_INVALID)
    else None
  }

  /** The first failing validator of `password` (required, minlength, maxlength); no setter applies. */
  function PasswordError(v: Option<string>): (m: Option<string>)
    ensures m.None? <==> v.Some? && PASSWORD_MIN_LENGTH <= Utf16Length(v.value) <= PASSWORD_MAX_LENGTH
  {
    if !Truthy(v) then Some(PASSWORD_REQUIRED)
    else if Utf16Length(v.value) < PASSWORD_MIN_LENGTH then Some(PASSWORD_TOO_SHORT)
    else if Utf16Length(v.value) > PASSWORD_MAX_LENGTH then Some(PASSWORD_TOO_LONG)
    else None
  }

  /** The first failing validator of `password_confirm` (required, equal to the document's password).
      The custom validator has no message of its own, so a mismatch reports the library's
      generic validator message. */
  function PasswordConfirmError(v: Option<string>, password: Option<string>): (m: Option<string>)
    ensures m.None? <==> v.Some? && v.value != "" && v == password
  {
    if !Truthy(v) then Some(PASSWORD_CONFIRM_REQUIRED)
    else if v != password then Some("Validator failed for path `password_confirm` with value `" + v.value + "`")
    else None
  }

  /** The enum validator of `role`. */
  function RoleError(role: string): (m: Option<string>)
    ensures m.None? <==> role == DEFAULT_ROLE || role == ADMIN_ROLE
  {
    if role == DEFAULT_ROLE || role == ADMIN_ROLE then None
    else Some("`" + role + "` is not a valid enum value for path `role`.")
  }

  datatype FieldError = FieldError(path: string, message: string)

  function Report(path: string, m: Option<string>): (r: seq<FieldError>)
    ensures r == [] <==> m.None?
    ensures forall e :: e in r ==> e.path == path
  {
    match m
    case None => []
    case Some(msg) => [FieldError(path, msg)]
  }

  /** Document validation: one error per failing path, in schema order; none exactly when every path is valid. */
  function Validate(user_name: Option<string>, email: Option<string>, password: Option<string>,
                    password_confirm: Option<string>, role: string, isEmail: string -> bool): (errs: seq<FieldError>)
    ensures errs == [] <==> && UserNameError(user_name).None? && EmailError(email, isEmail).None?
                            && PasswordError(password).None? && PasswordConfirmError(password_confirm, password).None?
                            && RoleError(role).None?
    ensures forall e :: e in errs ==> e.path in {"user_name", "email", "password", "password_confirm", "role"}
  {
    Report("user_name", UserNameError(user_name))
    + Report("email", EmailError(email, isEmail))
    + Report("password", PasswordError(password))
    + Report("password_confirm", PasswordConfirmError(password_confirm, password))
    + Report("role", RoleError(role))
  }

  /** The `path: message` items of a validation error, separated by ", ". */
  function JoinErrors(errs: seq<FieldError>): string {
    if errs == [] then ""
    else if |errs| == 1 then errs[0].path + ": " + errs[0].message
    else errs[0].path + ": " + errs[0].message + ", " + JoinErrors(errs[1..])
  }

  /** The library's validation error: not operational and without a status code, so the error
      handler answers it with a 500. */
  function ValidationError(errs: seq<FieldError>): (e: ErrorRecord)
    ensures e.name == "ValidationError" && !e.isOperational && e.statusCode.None? && e.status.None?
  {
    ErrorRecord("ValidationError", "User validation failed: " + JoinErrors(errs), None, None, None, false, None, None)
  }

  /** `user_name` as the schema accepts it: present, and 3 to 20 UTF-16 units long once trimmed. */
  predicate UserNameValid(raw: Option<string>) {
    raw.Some? && USER_NAME_MIN_LENGTH <= Utf16Length(Trim(raw.value)) <= USER_NAME_MAX_LENGTH
  }

  /** `email` as the schema accepts it: present, and an email address once trimmed and lower-cased. */
  predicate EmailValid(raw: Option<string>, isEmail: string -> bool) {
    raw.Some? && NormalizeEmail(raw.value) != "" && isEmail(NormalizeEmail(raw.value))
  }

  /** `password` as the schema accepts it: present and 8 to 20 UTF-16 units long. */
  predicate PasswordValid(raw: Option<string>) {
    raw.Some? && PASSWORD_MIN_LENGTH <= Utf16Length(raw.value) <= PASSWORD_MAX_LENGTH
  }

  /** `password_confirm` as the schema accepts it: present, non-empty and equal to the password. */
  predicate PasswordConfirmValid(raw: Option<string>, password: Option<string>) {
    raw.Some? && raw.value != "" && raw == password
  }

  /** `User.create(input)`: build the document at time `built` (setters and defaults), validate it,
      run the two hooks at time `saved` and store it. It succeeds exactly when every field rule
      holds; the stored user has the trimmed user name, the normalized email, the hashed password
      with 12 rounds, an emptied confirmation, role "user", null game state, `built` in the dates
      the defaults set and `saved` in `updated_at`. */
  function Create(input: UserInput, built: Time, saved: Time, lib: Libraries): (r: Result<UserRecord, ErrorRecord>)
    ensures r.Success? <==> && UserNameValid(input.user_name) && EmailValid(input.email, lib.isEmail)
                            && PasswordValid(input.password)
                            && PasswordConfirmValid(input.password_confirm, input.password)
    ensures r.Failure? ==> r.error.name == "ValidationError" && !r.error.isOperational
    ensures r.Success? ==>
      && r.value.user_name == Trim(input.user_name.value)
      && r.value.email == NormalizeEmail(input.email.value)
      && r.value.password == lib.hash(input.password.value, SALT_ROUNDS)
      && r.value.password_confirm == ""
      && r.value.role == DEFAULT_ROLE
      && NullDefaults(r.value.extras)
      && r.value.extras.created_at == built && r.value.extras.password_changed_at == built
      && r.value.extras.last_resource_update == built && r.value.updated_at == saved
  {
    var user_name := MapOption(input.user_name, Trim);
    var email := MapOption(input.email, NormalizeEmail);
    var errs := Validate(user_name, email, input.password, input.password_confirm, DEFAULT_ROLE, lib.isEmail);
    if errs != [] then Failure(ValidationError(errs))
    else Success(UserRecord(user_name.value, email.value, lib.hash(input.password.value, SALT_ROUNDS), "",
                            DEFAULT_ROLE, DefaultExtras(built), saved))
  }

  /** A stored user no longer passes the schema's own validation: its confirmation is empty, which
      the `required` rule of `password_confirm` rejects. */
  lemma StoredRecordFailsRevalidation(input: UserInput, built: Time, saved: Time, lib: Libraries)
    requires Create(input, built, saved, lib).Success?
    ensures var u := Create(input, built, saved, lib).value;
            PasswordConfirmError(Some(u.password_confirm), Some(u.password)) == Some(PASSWORD_CONFIRM_REQUIRED)
            && Validate(Some(u.user_name), Some(u.email), Some(u.password), Some(u.password_confirm), u.role, lib.isEmail) != []
  {
  }

  /** `comparePassword`: an `async` function, so it returns a promise that settles to bcrypt's verdict. */
  function ComparePassword(lib: Libraries, candidatePassword: string, userPassword: string): (p: JsValue)
    ensures p.JsPromise? && p.settlesTo == JsBool(lib.compare(candidatePassword, userPassword))
  {
    JsPromise(JsBool(lib.compare(candidatePassword, userPassword)))
  }

  /** A user document in memory. The fields hold the values after the setters; `passwordModified`
      is Mongoose's `isModified('password')`. */
  class UserDocument {
    var user_name: Option<string>
    var email: Option<string>
    var password: Option<string>
    var password_confirm: Option<string>
    var role: string
    var extras: Extras
    var updated_at: Time
    var passwordModified: bool

    /** Only a password that is there can have been modified. */
    ghost predicate Valid()
      reads this
    {
      passwordModified ==> password.Some?
    }

    /** `new User(input)` at time `now`: setters on the given paths, defaults on the others; the
        password counts as modified when one was given. */
    constructor (input: UserInput, now: Time)
      ensures Valid()
      ensures user_name == MapOption(input.user_name, Trim) && email == MapOption(input.email, NormalizeEmail)
      ensures password == input.password && password_confirm == input.password_confirm
      ensures role == DEFAULT_ROLE && extras == DefaultExtras(now) && updated_at == now
      ensures passwordModified == input.password.Some?
    {
      user_name := MapOption(input.user_name, Trim);
      email := MapOption(input.email, NormalizeEmail);
      password := input.password;
      password_confirm := input.password_confirm;
      role := DEFAULT_ROLE;
      extras := DefaultExtras(now);
      updated_at := now;
      passwordModified := input.password.Some?;
    }

    function ValidationErrors(isEmail: string -> bool): seq<FieldError>
      reads this
    {
      Validate(user_name, email, password, password_confirm, role, isEmail)
    }

    predicate Complete()
      reads this
    {
      user_name.Some? && email.Some? && password.Some? && password_confirm.Some?
    }

    function Record(): UserRecord
      reads this
      requires Complete()
    {
      UserRecord(user_name.value, email.value, password.value, password_confirm.value, role, extras, updated_at)
    }

    /** The first `pre('save')` hook: stamps `updated_at` with the clock reading `now`. */
    method StampUpdatedAt(now: Time)
      modifies this`updated_at
      ensures updated_at == now
    {
      updated_at := now;
    }

    /** The second `pre('save')` hook: a modified password is replaced by its hash with 12 rounds and
        the confirmation is emptied; an unmodified password and its confirmation are left alone. */
    method HashPasswordIfModified(hash: (string, nat) -> string)
      requires Valid()
      modifies this`password, this`password_confirm
      ensures Valid()
      ensures old(passwordModified) ==>
                password == Some(hash(old(password).value, SALT_ROUNDS)) && password_confirm == Some("")
      ensures !old(passwordModified) ==> password == old(password) && password_confirm == old(password_confirm)
    {
      if !passwordModified {
        return;
      }
      password := Some(hash(password.value, SALT_ROUNDS));
      password_confirm := Some("");
    }

    /** `save()`: validation first; on a failure nothing changes and the validation error is returned.
        Otherwise the two hooks run in order, the password stops counting as modified, and the saved
        record is returned. */
    method Save(now: Time, lib: Libraries) returns (r: Result<UserRecord, ErrorRecord>)
      requires Valid()
      modifies this
      ensures Valid()
      ensures old(ValidationErrors(lib.isEmail)) != [] ==>
                r == Failure(ValidationError(old(ValidationErrors(lib.isEmail)))) && unchanged(this)
      ensures old(ValidationErrors(lib.isEmail)) == [] ==>
                && user_name == old(user_name) && email == old(email)
                && role == old(role) && extras == old(extras)
                && updated_at == now
                && (old(passwordModified) ==>
                      password == Some(lib.hash(old(password).value, SALT_ROUNDS)) && password_confirm == Some(""))
                && (!old(passwordModified) ==> password == old(password) && password_confirm == old(password_confirm))
                && !passwordModified
                && Complete() && r == Success(Record())
    {
      var errs := ValidationErrors(lib.isEmail);
      if errs != [] {
        r := Failure(ValidationError(errs));
        return;
      }
      StampUpdatedAt(now);
      HashPasswordIfModified(lib.hash);
      passwordModified := false;
      r := Success(Record());
    }
  }
}
