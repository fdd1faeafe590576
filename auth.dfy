/** The sign-up and sign-in handlers: guard checks with early returns against the user store,
    ending in one insertion (sign-up) or none (sign-in). */
module Auth {
  import opened Common
  import opened Strings
  import opened Errors
  import opened UserModel

  const ALL_FIELDS_MESSAGE := "Please provide all fields"
  const PASSWORDS_DIFFER_MESSAGE := "Passwords do not match"
  const USER_EXISTS_MESSAGE := "User already exists"
  const USER_NOT_FOUND_MESSAGE := "User not found"
  const INVALID_CREDENTIALS_MESSAGE := "Invalid email or password"
  const LOGIN_MESSAGE := "Login successful"
  const SUCCESS := "success"

  /** The body of a sign-up request. */
  type SignUpBody = UserInput

  /** The body of a sign-in request. */
  datatype SignInBody = SignInBody(email: Option<string>, password: Option<string>)

  /** A successful JSON reply. */
  datatype Reply = SignedUp(status: string, user: UserRecord) | SignedIn(status: string, message: string)

  /** What a handler does: reply itself, or pass an error on to the error handler with `next`. */
  datatype Outcome = Respond(code: int, reply: Reply) | Next(error: ErrorRecord)

  /** A `findOne` filter. */
  datatype Filter =
    | ByEmailAndUserName(email: Option<string>, user_name: Option<string>)
    | ByEmail(address: string)

  /** Query casting: the filter's values go through the schema's setters (the email is trimmed and
      lower-cased, the user name trimmed) before they are compared. */
  function CastFilter(f: Filter): Filter {
    match f
    case ByEmailAndUserName(e, n) => ByEmailAndUserName(MapOption(e, NormalizeEmail), MapOption(n, Trim))
    case ByEmail(e) => ByEmail(NormalizeEmail(e))
  }

  /** A cast filter keeps the filter's keys and which of them are given, and its values are already in
      stored form: casting it again changes nothing. */
  lemma CastFilterIsStoredForm(f: Filter)
    ensures CastFilter(f).ByEmail? <==> f.ByEmail?
    ensures f.ByEmailAndUserName? ==> && (CastFilter(f).email.Some? <==> f.email.Some?)
                                      && (CastFilter(f).user_name.Some? <==> f.user_name.Some?)
    ensures CastFilter(CastFilter(f)) == CastFilter(f)
  {
    match f
    case ByEmailAndUserName(e, n) =>
      SettersIdempotent(e, n);
    case ByEmail(e) =>
      NormalizeEmailIdempotent(e);
  }

  /** Applying the setters of the email and user-name paths a second time changes nothing. */
  lemma SettersIdempotent(email: Option<string>, user_name: Option<string>)
    ensures MapOption(MapOption(email, NormalizeEmail), NormalizeEmail) == MapOption(email, NormalizeEmail)
    ensures MapOption(MapOption(user_name, Trim), Trim) == MapOption(user_name, Trim)
  {
    if email.Some? {
      NormalizeEmailIdempotent(email.value);
    }
    if user_name.Some? {
      TrimIdempotent(user_name.value);
    }
  }

  /** A cast filter matches a user when every key it names holds the user's value. Mongoose drops a
      key whose value is undefined, so `{email: undefined, user_name}` would match on the user name
      alone; here such a key matches no user. No outcome changes: sign-up consults the lookup only
      after the guard that requires all four fields, and sign-in only after its guard on the email. */
  predicate Matches(u: UserRecord, f: Filter) {
    match f
    case ByEmailAndUserName(e, n) => e == Some(u.email) && n == Some(u.user_name)
    case ByEmail(e) => e == u.email
  }

  /** The position of the first user the filter matches, if any. */
  function FindIndex(users: seq<UserRecord>, f: Filter): (k: Option<nat>)
    ensures k.Some? ==> k.value < |users| && Matches(users[k.value], f)
    ensures k.Some? ==> forall j :: 0 <= j < k.value ==> !Matches(users[j], f)
    ensures k.None? ==> forall j :: 0 <= j < |users| ==> !Matches(users[j], f)
  {
    if users == [] then None
    else if Matches(users[0], f) then Some(0)
    else
      var rest := FindIndex(users[1..], f);
      assert forall j :: 1 <= j < |users| ==> users[j] == users[1..][j - 1];
      if rest.None? then None else Some(rest.value + 1)
  }

  /** `User.findOne(f)`, with `select("+password")` when `selectPassword`: the first user the cast
      filter matches, as a query returns it, or nothing when no user matches. */
  function FindOne(users: seq<UserRecord>, f: Filter, selectPassword: bool): (r: Option<UserView>)
    ensures r.None? <==> forall j :: 0 <= j < |users| ==> !Matches(users[j], CastFilter(f))
    ensures r.Some? ==> (r.value.password.Some? <==> selectPassword)
    ensures r.Some? ==> exists i :: && 0 <= i < |users| && Matches(users[i], CastFilter(f))
                                    && (forall j :: 0 <= j < i ==> !Matches(users[j], CastFilter(f)))
                                    && r.value == Read(users[i], selectPassword)
  {
    var k := FindIndex(users, CastFilter(f));
    if k.None? then None else Some(Read(users[k.value], selectPassword))
  }

  predicate AllFieldsGiven(req: SignUpBody) {
    Truthy(req.email) && Truthy(req.user_name) && Truthy(req.password) && Truthy(req.password_confirm)
  }

  /** Some stored user has both the (normalized) email and the (trimmed) user name of the request. */
  predicate SameEmailAndUserName(users: seq<UserRecord>, email: string, user_name: string) {
    exists i :: 0 <= i < |users| && users[i].email == NormalizeEmail(email) && users[i].user_name == Trim(user_name)
  }

  /** The end of `signUp`: create the user; a validation error is passed on and nothing is stored,
      a created user is appended to the store and sent back with a 201. */
  function CreateAndStore(users: seq<UserRecord>, req: SignUpBody, built: Time, saved: Time, lib: Libraries): (r: (Outcome, seq<UserRecord>))
    ensures r.0.Next? ==> r.1 == users && r.0.error.name == "ValidationError" && !r.0.error.isOperational
    ensures r.0.Next? <==> Create(req, built, saved, lib).Failure?
    ensures r.0.Respond? ==> && r.0.code == 201 && r.0.reply.SignedUp? && r.0.reply.status == SUCCESS
                             && r.0.reply.user == Create(req, built, saved, lib).value
                             && r.1 == users + [r.0.reply.user]
  {
    match Create(req, built, saved, lib)
    case Failure(e) => (Next(e), users)
    case Success(u) => (Respond(201, SignedUp(SUCCESS, u)), users + [u])
  }

  /** `signUp` on store `users`, with the document built at `built` and saved at `saved`: the outcome and the store afterwards. Each failure
      leaves the store as it was; a reply appends exactly one user, the one it carries. */
  function SignUpSpec(users: seq<UserRecord>, req: SignUpBody, built: Time, saved: Time, lib: Libraries): (r: (Outcome, seq<UserRecord>))
    ensures r.0.Next? ==> r.1 == users
    ensures r.0.Next? ==> || r.0.error == AppError(ALL_FIELDS_MESSAGE, 400)
                          || r.0.error == AppError(PASSWORDS_DIFFER_MESSAGE, 400)
                          || r.0.error == AppError(USER_EXISTS_MESSAGE, 409)
                          || (r.0.error.name == "ValidationError" && !r.0.error.isOperational)
    ensures r.0.Respond? ==> && r.0.code == 201 && r.0.reply.SignedUp? && r.0.reply.status == SUCCESS
                             && AllFieldsGiven(req) && Create(req, built, saved, lib).Success?
                             && r.0.reply.user == Create(req, built, saved, lib).value
                             && r.1 == users + [r.0.reply.user]
  {
    var userCheck := FindOne(users, ByEmailAndUserName(req.email, req.user_name), false);
    if !AllFieldsGiven(req) then (Next(AppError(ALL_FIELDS_MESSAGE, 400)), users)
    else if req.password.value != req.password_confirm.value then (Next(AppError(PASSWORDS_DIFFER_MESSAGE, 400)), users)
    else if userCheck.Some? then (Next(AppError(USER_EXISTS_MESSAGE, 409)), users)
    else CreateAndStore(users, req, built, saved, lib)
  }

  /** The existence lookup of a complete request finds a user exactly when one has both its email and its user name. */
  lemma {:induction false} ConflictLookup(users: seq<UserRecord>, req: SignUpBody)
    requires AllFieldsGiven(req)
    ensures FindOne(users, ByEmailAndUserName(req.email, req.user_name), false).Some?
        <==> SameEmailAndUserName(users, req.email.value, req.user_name.value)
  {
    var f := CastFilter(ByEmailAndUserName(req.email, req.user_name));
    assert f == ByEmailAndUserName(Some(NormalizeEmail(req.email.value)), Some(Trim(req.user_name.value)));
    if SameEmailAndUserName(users, req.email.value, req.user_name.value) {
      var i :| 0 <= i < |users| && users[i].email == NormalizeEmail(req.email.value) && users[i].user_name == Trim(req.user_name.value);
      assert Matches(users[i], f);
    }
  }

  /** The user store the handlers work on. */
  class UserStore {
    var users: seq<UserRecord>

    constructor ()
      ensures users == []
    {
      users := [];
    }

    /** `signUp`: look the user up, run the three guards in order, then create and store the user. */
    method SignUp(req: SignUpBody, built: Time, saved: Time, lib: Libraries) returns (out: Outcome)
      modifies this
      ensures (out, users) == SignUpSpec(old(users), req, built, saved, lib)
    {
      var userCheck := FindOne(users, ByEmailAndUserName(req.email, req.user_name), false);
      if !Truthy(req.email) || !Truthy(req.user_name) || !Truthy(req.password) || !Truthy(req.password_confirm) {
        return Next(AppError(ALL_FIELDS_MESSAGE, 400));
      }
      if req.password.value != req.password_confirm.value {
        return Next(AppError(PASSWORDS_DIFFER_MESSAGE, 400));
      }
      if userCheck.Some? {
        return Next(AppError(USER_EXISTS_MESSAGE, 409));
      }
      var newUser := new UserDocument(req, built);
      var created := newUser.Save(saved, lib);
      match created
      case Failure(e) =>
        out := Next(e);
      case Success(u) =>
        users := users + [u];
        out := Respond(201, SignedUp(SUCCESS, u));
    }
  }

  /** A request missing any of the four fields gets the missing-fields 400 and the store is unchanged. */
  lemma SignUpRejectsMissingFields(users: seq<UserRecord>, req: SignUpBody, built: Time, saved: Time, lib: Libraries)
    requires !AllFieldsGiven(req)
    ensures SignUpSpec(users, req, built, saved, lib) == (Next(AppError(ALL_FIELDS_MESSAGE, 400)), users)
  {
  }

  /** A complete request whose password and confirmation differ gets the mismatch 400 and the store is unchanged. */
  lemma SignUpRejectsMismatch(users: seq<UserRecord>, req: SignUpBody, built: Time, saved: Time, lib: Libraries)
    requires AllFieldsGiven(req) && req.password != req.password_confirm
    ensures SignUpSpec(users, req, built, saved, lib) == (Next(AppError(PASSWORDS_DIFFER_MESSAGE, 400)), users)
  {
  }

  /** The checks run in order: an incomplete request that also collides with a stored user gets the
      missing-fields 400, never the 409. */
  lemma SignUpChecksFieldsFirst(users: seq<UserRecord>, req: SignUpBody, built: Time, saved: Time, lib: Libraries)
    requires !AllFieldsGiven(req)
    requires req.email.Some? && req.user_name.Some? && SameEmailAndUserName(users, req.email.value, req.user_name.value)
    ensures SignUpSpec(users, req, built, saved, lib).0.error.statusCode == Some(400)
    ensures SignUpSpec(users, req, built, saved, lib).0.error.message == ALL_FIELDS_MESSAGE
  {
  }

  /** A complete, consistent request gets the 409 exactly when some stored user has both its email
      and its user name; the store is then unchanged. */
  lemma SignUpConflictIff(users: seq<UserRecord>, req: SignUpBody, built: Time, saved: Time, lib: Libraries)
    requires AllFieldsGiven(req) && req.password == req.password_confirm
    ensures SignUpSpec(users, req, built, saved, lib).0 == Next(AppError(USER_EXISTS_MESSAGE, 409))
        <==> SameEmailAndUserName(users, req.email.value, req.user_name.value)
    ensures SameEmailAndUserName(users, req.email.value, req.user_name.value) ==> SignUpSpec(users, req, built, saved, lib).1 == users
  {
    ConflictLookup(users, req);
    if !SameEmailAndUserName(users, req.email.value, req.user_name.value) {
      assert SignUpSpec(users, req, built, saved, lib) == CreateAndStore(users, req, built, saved, lib);
      assert AppError(USER_EXISTS_MESSAGE, 409).isOperational;
    }
  }

  /** The existence check is a conjunction: a stored user who shares only the email, or only the
      user name, does not block the sign-up, which then ends as creating the user ends. */
  lemma SignUpPartialMatchDoesNotBlock(users: seq<UserRecord>, req: SignUpBody, built: Time, saved: Time, lib: Libraries)
    requires AllFieldsGiven(req) && req.password == req.password_confirm
    requires !SameEmailAndUserName(users, req.email.value, req.user_name.value)
    ensures SignUpSpec(users, req, built, saved, lib) == CreateAndStore(users, req, built, saved, lib)
  {
    ConflictLookup(users, req);
  }

  /** When every check passes and the user is valid, exactly one user is appended: the one with the
      trimmed user name, the normalized email and the hashed password, which the 201 reply carries;
      the stored users before it are untouched. */
  lemma SignUpAddsOneUser(users: seq<UserRecord>, req: SignUpBody, built: Time, saved: Time, lib: Libraries)
    requires AllFieldsGiven(req) && req.password == req.password_confirm
    requires !SameEmailAndUserName(users, req.email.value, req.user_name.value)
    requires Create(req, built, saved, lib).Success?
    ensures var (out, after) := SignUpSpec(users, req, built, saved, lib);
            && out.Respond? && out.code == 201 && out.reply.status == SUCCESS
            && after == users + [out.reply.user]
            && out.reply.user.email == NormalizeEmail(req.email.value)
            && out.reply.user.user_name == Trim(req.user_name.value)
            && out.reply.user.password == lib.hash(req.password.value, SALT_ROUNDS)
            && out.reply.user.password_confirm == ""
  {
    SignUpPartialMatchDoesNotBlock(users, req, built, saved, lib);
  }

  /** A request that passes the guards but breaks a schema rule is passed on as the validation error,
      and nothing is stored. */
  lemma SignUpInvalidUserNotStored(users: seq<UserRecord>, req: SignUpBody, built: Time, saved: Time, lib: Libraries)
    requires AllFieldsGiven(req) && req.password == req.password_confirm
    requires !SameEmailAndUserName(users, req.email.value, req.user_name.value)
    requires !PasswordValid(req.password) || !UserNameValid(req.user_name) || !EmailValid(req.email, lib.isEmail)
    ensures var (out, after) := SignUpSpec(users, req, built, saved, lib);
            out.Next? && out.error.name == "ValidationError" && after == users
  {
    SignUpPartialMatchDoesNotBlock(users, req, built, saved, lib);
  }

  /** In production a failed sign-up reaches the client as a 400, a 409 or a 500, never with a stack. */
  lemma SignUpFailureInProduction(users: seq<UserRecord>, req: SignUpBody, built: Time, saved: Time, lib: Libraries)
    requires SignUpSpec(users, req, built, saved, lib).0.Next?
    ensures var sent := ErrorResponse(Some(PRODUCTION), SignUpSpec(users, req, built, saved, lib).0.error).sent.value;
            sent.code in {400, 409, 500} && sent.body.stack.None?
  {
    var e := SignUpSpec(users, req, built, saved, lib).0.error;
    if e == AppError(ALL_FIELDS_MESSAGE, 400) {
      ProductionAppError(ALL_FIELDS_MESSAGE, 400);
    } else if e == AppError(PASSWORDS_DIFFER_MESSAGE, 400) {
      ProductionAppError(PASSWORDS_DIFFER_MESSAGE, 400);
    } else if e == AppError(USER_EXISTS_MESSAGE, 409) {
      ProductionAppError(USER_EXISTS_MESSAGE, 409);
    } else {
      ProductionNonOperational(e);
    }
  }

  /** `comparePassword` as `signIn` uses it, given the user the lookup found. */
  function CheckPassword(lib: Libraries, req: SignInBody, user: UserView): (p: JsValue)
    requires Truthy(req.password) && user.password.Some?
    ensures p.JsPromise? && IsTruthy(p)
    ensures Await(p) == JsBool(lib.compare(req.password.value, user.password.value))
  {
    ComparePassword(lib, req.password.value, user.password.value)
  }

  /** `signIn` as written: `comparePassword` is called without `await`, so `isPasswordMatch` is a promise. */
  function SignIn(users: seq<UserRecord>, req: SignInBody, lib: Libraries): (out: Outcome)
    ensures out.Respond? ==> out == Respond(200, SignedIn(SUCCESS, LOGIN_MESSAGE))
  {
    if !Truthy(req.email) || !Truthy(req.password) then Next(AppError(ALL_FIELDS_MESSAGE, 400))
    else
      var user := FindOne(users, ByEmail(req.email.value), true);
      if user.None? then Next(AppError(USER_NOT_FOUND_MESSAGE, 404))
      else
        var isPasswordMatch := CheckPassword(lib, req, user.value);
        if user.None? || !IsTruthy(isPasswordMatch) then Next(AppError(INVALID_CREDENTIALS_MESSAGE, 401))
        else Respond(200, SignedIn(SUCCESS, LOGIN_MESSAGE))
  }

  /** `signIn` with the evidently intended `await` on `comparePassword`. */
  function SignInAwaited(users: seq<UserRecord>, req: SignInBody, lib: Libraries): (out: Outcome)
    ensures out.Respond? ==> out == Respond(200, SignedIn(SUCCESS, LOGIN_MESSAGE))
  {
    if !Truthy(req.email) || !Truthy(req.password) then Next(AppError(ALL_FIELDS_MESSAGE, 400))
    else
      var user := FindOne(users, ByEmail(req.email.value), true);
      if user.None? then Next(AppError(USER_NOT_FOUND_MESSAGE, 404))
      else
        var isPasswordMatch := Await(CheckPassword(lib, req, user.value));
        if user.None? || !IsTruthy(isPasswordMatch) then Next(AppError(INVALID_CREDENTIALS_MESSAGE, 401))
        else Respond(200, SignedIn(SUCCESS, LOGIN_MESSAGE))
  }

  predicate HasEmail(users: seq<UserRecord>, email: string) {
    exists i :: 0 <= i < |users| && users[i].email == NormalizeEmail(email)
  }

  /** A sign-in missing the email or the password gets the missing-fields 400. */
  lemma SignInRejectsMissingFields(users: seq<UserRecord>, req: SignInBody, lib: Libraries)
    requires !Truthy(req.email) || !Truthy(req.password)
    ensures SignIn(users, req, lib) == Next(AppError(ALL_FIELDS_MESSAGE, 400))
  {
  }

  /** A complete sign-in gets the 404 exactly when no stored user has its (normalized) email. */
  lemma SignInUnknownEmail(users: seq<UserRecord>, req: SignInBody, lib: Libraries)
    requires Truthy(req.email) && Truthy(req.password)
    ensures SignIn(users, req, lib) == Next(AppError(USER_NOT_FOUND_MESSAGE, 404)) <==> !HasEmail(users, req.email.value)
  {
    if HasEmail(users, req.email.value) {
      var i :| 0 <= i < |users| && users[i].email == NormalizeEmail(req.email.value);
      assert Matches(users[i], CastFilter(ByEmail(req.email.value)));
    }
  }

  /** As written, the 401 branch cannot be taken: every sign-in whose email is found succeeds,
      whatever the password and whatever bcrypt says about it. */
  lemma SignInIgnoresPassword(users: seq<UserRecord>, req: SignInBody, lib: Libraries)
    requires Truthy(req.email) && Truthy(req.password) && HasEmail(users, req.email.value)
    ensures SignIn(users, req, lib) == Respond(200, SignedIn(SUCCESS, LOGIN_MESSAGE))
  {
    var i :| 0 <= i < |users| && users[i].email == NormalizeEmail(req.email.value);
    var f := CastFilter(ByEmail(req.email.value));
    assert f == ByEmail(NormalizeEmail(req.email.value));
    assert Matches(users[i], f);
    var user := FindOne(users, ByEmail(req.email.value), true);
    assert user.Some? && user.value.password.Some?;
    assert IsTruthy(CheckPassword(lib, req, user.value));
  }

  /** As written, no sign-in is ever answered with a 401. */
  lemma SignInNever401(users: seq<UserRecord>, req: SignInBody, lib: Libraries)
    ensures SignIn(users, req, lib).Next? ==> SignIn(users, req, lib).error.statusCode != Some(401)
  {
    if Truthy(req.email) && Truthy(req.password) && HasEmail(users, req.email.value) {
      SignInIgnoresPassword(users, req, lib);
    }
  }

  /** A concrete case: a user whose stored digest bcrypt rejects for the given password still logs in. */
  lemma SignInWrongPasswordWitness()
    ensures var lib := Libraries((p, n) => p, (c, d) => false, e => true);
            var u := UserRecord("abc", NormalizeEmail("a@x.com"), "digest", "", DEFAULT_ROLE, DefaultExtras(0), 0);
            SignIn([u], SignInBody(Some("a@x.com"), Some("wrong")), lib) == Respond(200, SignedIn(SUCCESS, LOGIN_MESSAGE))
  {
    var lib := Libraries((p, n) => p, (c, d) => false, e => true);
    var u := UserRecord("abc", NormalizeEmail("a@x.com"), "digest", "", DEFAULT_ROLE, DefaultExtras(0), 0);
    assert [u][0] == u;
    SignInIgnoresPassword([u], SignInBody(Some("a@x.com"), Some("wrong")), lib);
  }

  /** With the `await`, the first user with the email logs in exactly when bcrypt accepts the password
      against that user's stored digest; otherwise the answer is the 401. */
  lemma SignInAwaitedChecksPassword(users: seq<UserRecord>, req: SignInBody, lib: Libraries, i: nat)
    requires Truthy(req.email) && Truthy(req.password)
    requires i < |users| && users[i].email == NormalizeEmail(req.email.value)
    requires forall j :: 0 <= j < i ==> users[j].email != NormalizeEmail(req.email.value)
    ensures SignInAwaited(users, req, lib)
         == if lib.compare(req.password.value, users[i].password) then Respond(200, SignedIn(SUCCESS, LOGIN_MESSAGE))
            else Next(AppError(INVALID_CREDENTIALS_MESSAGE, 401))
  {
    var f := CastFilter(ByEmail(req.email.value));
    assert Matches(users[i], f);
    var k := FindIndex(users, f);
    assert k == Some(i);
  }

  /** Round trip: after a successful sign-up with an email no stored user had, signing in with the
      same email and password succeeds, given that bcrypt accepts a password against its own digest. */
  lemma SignUpThenSignIn(users: seq<UserRecord>, req: SignUpBody, built: Time, saved: Time, lib: Libraries)
    requires SignUpSpec(users, req, built, saved, lib).0.Respond?
    requires !HasEmail(users, req.email.value)
    requires lib.compare(req.password.value, lib.hash(req.password.value, SALT_ROUNDS))
    ensures SignInAwaited(SignUpSpec(users, req, built, saved, lib).1, SignInBody(req.email, req.password), lib)
         == Respond(200, SignedIn(SUCCESS, LOGIN_MESSAGE))
  {
    var after := SignUpSpec(users, req, built, saved, lib).1;
    var u := Create(req, built, saved, lib).value;
    assert after == users + [u];
    assert after[|users|] == u;
    forall j | 0 <= j < |users| ensures after[j].email != NormalizeEmail(req.email.value) {
      assert after[j] == users[j];
    }
    SignInAwaitedChecksPassword(after, SignInBody(req.email, req.password), lib, |users|);
  }
}
