/** Registration, login, logout and the signed-in user's own profile. The token signer, the
    password hash and its comparison are parameters. */
module AuthController {
  import opened Common
  import opened Text
  import opened Validator
  import opened UserModel
  import opened PropertyModel
  import opened ErrorMiddleware
  import opened Store

  const INVALID_EMAIL: ApiError := ApiError(400, "Please provide a valid email address")
  const INVALID_PHONE: ApiError := ApiError(400, "Please provide a valid Indian phone number")
  const SHORT_PASSWORD: ApiError := ApiError(400, "Password must be at least 6 characters long")
  const USER_EXISTS: ApiError := ApiError(400, "User with this email or phone already exists")
  const BAD_CREDENTIALS: ApiError := ApiError(401, "Invalid email or password")
  const REGISTERED_MESSAGE: string := "User registered successfully"
  const LOGIN_MESSAGE: string := "Login successful"
  const LOGOUT_MESSAGE: string := "Logout successful"
  const DEFAULT_ROLE: string := "buyer"

  /** The session cookie lives for 30 days, in milliseconds. */
  const COOKIE_MAX_AGE: int := 30 * 24 * 60 * 60 * 1000

  /** A string field of the JSON body as `validateRequired` sees it. */
  function BodyValue(v: Option<string>): JsValue
  {
    if v.Some? then Str(v.value) else Undefined
  }

  /** The reply to a request with blank fields: their keys, joined with ", ". */
  function MissingFieldsError(missing: seq<string>): (e: ApiError)
    ensures e.statusCode == 400 && e.message == "Missing required fields: " + Join(missing, ", ")
  {
    ApiError(400, "Missing required fields: " + Join(missing, ", "))
  }

  /** The user as the replies show it: there is no password field. */
  datatype UserView = UserView(id: Id, name: string, email: string, phone: string, role: Role, isVerified: bool)

  function ViewOf(u: User): (v: UserView)
    ensures v.id == u.id && v.name == u.name && v.email == u.email && v.phone == u.phone
    ensures v.role == u.role && v.isVerified == u.isVerified
  {
    UserView(u.id, u.name, u.email, u.phone, u.role, u.isVerified)
  }

  /** Whatever the stored hash, the view is the same: no reply can leak it. */
  lemma {:induction false} ViewHidesPassword(u: User, hash: string)
    ensures ViewOf(u.(password := hash)) == ViewOf(u)
  {
    assert u.(password := hash).id == u.id;
  }

  datatype Cookie = Cookie(name: string, value: string, httpOnly: bool, secure: bool, sameSite: string,
                           maxAge: Option<int>, expires: Option<int>)

  /** The `token` cookie set on registration and login. */
  function SessionCookie(token: string, production: bool): (c: Cookie)
    ensures c.name == "token" && c.value == token && c.httpOnly && c.secure == production
    ensures c.maxAge == Some(COOKIE_MAX_AGE) && c.expires.None?
  {
    Cookie("token", token, true, production, "strict", Some(COOKIE_MAX_AGE), None)
  }

  /** The reply of a successful registration or login. */
  datatype AuthReply = AuthReply(statusCode: int, message: string, user: UserView, token: string, cookie: Cookie)

  datatype RegisterInput = RegisterInput(name: Option<string>, email: Option<string>, phone: Option<string>,
                                         password: Option<string>, role: Option<string>)

  function RegisterFields(i: RegisterInput): seq<(string, JsValue)>
  {
    [("name", BodyValue(i.name)), ("email", BodyValue(i.email)), ("phone", BodyValue(i.phone)),
     ("password", BodyValue(i.password))]
  }

  /** A body field `validateRequired` accepts: a string that is not white space only. */
  predicate Filled(v: Option<string>)
  {
    v.Some? && Trim(v.value) != []
  }

  lemma FilledNotBlank(v: Option<string>)
    ensures Filled(v) <==> !Blank(BodyValue(v))
  {
    if v.Some? && v.value == [] {
      assert AllSpace(v.value);
    }
  }

  predicate RegisterFilled(i: RegisterInput)
  {
    Filled(i.name) && Filled(i.email) && Filled(i.phone) && Filled(i.password)
  }

  /** `validateRequired` reports nothing exactly when the four fields are filled. */
  lemma {:induction false} RegisterFieldsMissing(i: RegisterInput)
    ensures MissingKeys(RegisterFields(i)) == [] <==> RegisterFilled(i)
  {
    var f0, f1, f2, f3 := ("name", BodyValue(i.name)), ("email", BodyValue(i.email)),
                          ("phone", BodyValue(i.phone)), ("password", BodyValue(i.password));
    assert RegisterFields(i) == [f0] + ([f1] + ([f2] + ([f3] + [])));
    MissingKeysCons(f0, [f1] + ([f2] + ([f3] + [])));
    MissingKeysCons(f1, [f2] + ([f3] + []));
    MissingKeysCons(f2, [f3] + []);
    MissingKeysCons(f3, []);
    FilledNotBlank(i.name);
    FilledNotBlank(i.email);
    FilledNotBlank(i.phone);
    FilledNotBlank(i.password);
  }

  /** The first check a request fails, in the order the controller makes them. */
  datatype Refusal = MissingFields(keys: seq<string>) | BadEmail | BadPhone | ShortPassword

  function RefusalError(f: Refusal): (e: ApiError)
    ensures e.statusCode == 400
  {
    match f
    case MissingFields(keys) => MissingFieldsError(keys)
    case BadEmail => INVALID_EMAIL
    case BadPhone => INVALID_PHONE
    case ShortPassword => SHORT_PASSWORD
  }

  /** The checks `register` makes before it reads the database: blank fields (all of them
      listed), then the email, the phone and the password length. Each check is reached only
      when the ones before it pass. */
  function RegisterGate(i: RegisterInput): (r: Option<Refusal>)
    ensures !RegisterFilled(i) ==> r == Some(MissingFields(MissingKeys(RegisterFields(i))))
    ensures r.None? ==> RegisterFilled(i)
    ensures r.None? <==>
      RegisterFilled(i) && ValidateEmail(i.email.value) && ValidatePhone(i.phone.value) &&
      Utf16Length(i.password.value) >= PASSWORD_MIN
    ensures r == Some(BadEmail) ==> RegisterFilled(i)
    ensures r == Some(BadPhone) ==> RegisterFilled(i) && ValidateEmail(i.email.value)
    ensures r == Some(ShortPassword) ==> RegisterFilled(i) && ValidateEmail(i.email.value) && ValidatePhone(i.phone.value)
  {
    var missing := MissingKeys(RegisterFields(i));
    RegisterFieldsMissing(i);
    if missing != [] then Some(MissingFields(missing))
    else if !ValidateEmail(i.email.value) then Some(BadEmail)
    else if !ValidatePhone(i.phone.value) then Some(BadPhone)
    else if !ValidatePassword(BodyValue(i.password)) then Some(ShortPassword)
    else None
  }

  /** `role || 'buyer'`. */
  function RoleText(role: Option<string>): (t: string)
    ensures !Present(role) ==> t == DEFAULT_ROLE
    ensures Present(role) ==> t == role.value
  {
    if Present(role) then role.value else DEFAULT_ROLE
  }

  /** The schema checks `User.create` can still fail once the gate has passed: the trimmed name
      is too long, or the role is not one of the two. */
  function CreateErrors(name: string, role: string): (r: seq<string>)
    ensures r == [] <==> Utf16Length(Trim(name)) <= NAME_MAX && ParseRole(role).Some?
  {
    (if Utf16Length(Trim(name)) > NAME_MAX then [NAME_TOO_LONG] else []) +
    (if ParseRole(role).None? then [EnumMessage(role, "role")] else [])
  }

  /** The document `User.create` stores: the name trimmed and the email lower-cased by their
      setters, the password through the hashing hook, not verified, nothing saved. */
  function NewUser(id: Id, i: RegisterInput, role: Role, hash: string -> string, now: int): (u: User)
    requires i.name.Some? && i.email.Some? && i.phone.Some? && i.password.Some?
    ensures u.id == id && u.email == ToLower(i.email.value) && u.phone == i.phone.value && u.role == role
    ensures u.password == hash(i.password.value) && !u.isVerified && u.savedListings == []
  {
    User(id, Trim(i.name.value), ToLower(i.email.value), i.phone.value, hash(i.password.value), role, false,
         None, [], now, now)
  }

  /** Lower-casing keeps the shape of an email address. */
  lemma LowerKeepsEmail(s: string)
    requires EmailShape(s)
    ensures EmailShape(ToLower(s))
  {
    ToLowerIsLower(s);
    var i, j :| 0 < i && i + 1 < j && j + 1 < |s| && s[i] == '@' && s[j] == '.';
    assert ToLower(s)[i] == '@' && ToLower(s)[j] == '.';
  }

  /** A registration that passed every check stores a valid user. */
  lemma NewUserValid(id: Id, i: RegisterInput, role: Role, hash: string -> string, now: int)
    requires RegisterGate(i).None? && Utf16Length(Trim(i.name.value)) <= NAME_MAX
    requires forall s :: hash(s) != []
    ensures UserValid(NewUser(id, i, role, hash, now))
  {
    var u := NewUser(id, i, role, hash, now);
    assert u.name == Trim(i.name.value) && u.name != [];
    TrimIdempotent(i.name.value);
    assert EmailShape(i.email.value);
    LowerKeepsEmail(i.email.value);
    ToLowerIsLower(i.email.value);
    assert u.password == hash(i.password.value);
  }

  lemma AppendKeepsIds(users: seq<User>, u: User)
    requires DistinctUserIds(users) && forall k :: 0 <= k < |users| ==> users[k].id != u.id
    ensures DistinctUserIds(users + [u])
  {
    var ws := users + [u];
    assert forall k :: 0 <= k < |users| ==> ws[k] == users[k];
  }

  lemma AppendKeepsEmails(users: seq<User>, u: User)
    requires DistinctEmails(users) && forall k :: 0 <= k < |users| ==> users[k].email != u.email
    ensures DistinctEmails(users + [u])
  {
    var ws := users + [u];
    assert forall k :: 0 <= k < |users| ==> ws[k] == users[k];
  }

  lemma AppendKeepsSchema(users: seq<User>, u: User)
    requires (forall k :: 0 <= k < |users| ==> UserValid(users[k])) && UserValid(u)
    ensures var ws := users + [u]; forall k :: 0 <= k < |ws| ==> UserValid(ws[k])
  {
    var ws := users + [u];
    forall k | 0 <= k < |ws| ensures UserValid(ws[k]) {
      if k < |users| {
        assert ws[k] == users[k];
      } else {
        assert ws[k] == u;
      }
    }
  }

  /** Adding a valid user whose id and email are new keeps the collection valid. */
  lemma AppendKeepsUsers(users: seq<User>, u: User)
    requires UsersValid(users) && UserValid(u)
    requires forall k :: 0 <= k < |users| ==> users[k].id != u.id && users[k].email != u.email
    ensures UsersValid(users + [u])
  {
    AppendKeepsIds(users, u);
    AppendKeepsEmails(users, u);
    AppendKeepsSchema(users, u);
  }

  /** `register`. `hash` stands for the save hook's bcrypt hash and `sign` for `generateToken`;
      `newId` is the id MongoDB gives the new document. */
  method Register(db: Database, i: RegisterInput, hash: string -> string, sign: Id -> string,
                  production: bool, newId: Id, now: int) returns (r: Result<AuthReply>)
    requires db.Valid()
    requires forall s :: hash(s) != []
    requires forall k :: 0 <= k < |db.users| ==> db.users[k].id != newId
    modifies db
    ensures db.Valid()
    ensures db.properties == old(db.properties) && db.payments == old(db.payments) && db.unlocks == old(db.unlocks)
    ensures RegisterGate(i).Some? ==> r == Err(RefusalError(RegisterGate(i).value)) && db.users == old(db.users)
    ensures RegisterGate(i).None? && EmailOrPhoneTaken(old(db.users), i.email.value, i.phone.value) ==>
      r == Err(USER_EXISTS) && db.users == old(db.users)
    ensures RegisterGate(i).None? && !EmailOrPhoneTaken(old(db.users), i.email.value, i.phone.value) ==>
      var errors := CreateErrors(i.name.value, RoleText(i.role));
      (errors != [] ==> r == Err(ValidationFailure(errors)) && db.users == old(db.users)) &&
      (errors == [] ==>
         var u := NewUser(newId, i, ParseRole(RoleText(i.role)).value, hash, now);
         db.users == old(db.users) + [u] &&
         r == Ok(AuthReply(201, REGISTERED_MESSAGE, ViewOf(u), sign(newId), SessionCookie(sign(newId), production))))
    ensures r.Ok? && !Present(i.role) ==> r.value.user.role == Buyer
  {
    var gate := RegisterGate(i);
    if gate.Some? {
      return Err(RefusalError(gate.value));
    }
    if EmailOrPhoneTaken(db.users, i.email.value, i.phone.value) {
      return Err(USER_EXISTS);
    }
    var roleText := RoleText(i.role);
    var errors := CreateErrors(i.name.value, roleText);
    if errors != [] {
      return Err(ValidationFailure(errors));
    }
    var u := NewUser(newId, i, ParseRole(roleText).value, hash, now);
    NewUserValid(newId, i, u.role, hash, now);
    AppendKeepsUsers(db.users, u);
    WriteUsers(db, db.users + [u]);
    var token := sign(newId);
    r := Ok(AuthReply(201, REGISTERED_MESSAGE, ViewOf(u), token, SessionCookie(token, production)));
  }

  datatype LoginInput = LoginInput(email: Option<string>, password: Option<string>)

  function LoginFields(i: LoginInput): seq<(string, JsValue)>
  {
    [("email", BodyValue(i.email)), ("password", BodyValue(i.password))]
  }

  predicate LoginFilled(i: LoginInput)
  {
    Filled(i.email) && Filled(i.password)
  }

  lemma {:induction false} LoginFieldsMissing(i: LoginInput)
    ensures MissingKeys(LoginFields(i)) == [] <==> LoginFilled(i)
  {
    var fields := LoginFields(i);
    NothingMissing(fields);
    FilledNotBlank(i.email);
    FilledNotBlank(i.password);
    assert fields[0].1 == BodyValue(i.email) && fields[1].1 == BodyValue(i.password);
  }

  /** The checks `login` makes before it reads the database: blank fields, then the email. */
  function LoginGate(i: LoginInput): (r: Option<Refusal>)
    ensures r.None? ==> LoginFilled(i)
    ensures r.Some? ==> r.value.MissingFields? || r.value == BadEmail
  {
    var missing := MissingKeys(LoginFields(i));
    LoginFieldsMissing(i);
    if missing != [] then Some(MissingFields(missing))
    else if !ValidateEmail(i.email.value) then Some(BadEmail)
    else None
  }

  /** Blank fields are refused with their names; filled fields pass exactly when the email has
      the shape `validateEmail` accepts. */
  lemma LoginGateSpec(i: LoginInput)
    ensures !LoginFilled(i) ==> LoginGate(i) == Some(MissingFields(MissingKeys(LoginFields(i))))
    ensures LoginGate(i).None? <==> LoginFilled(i) && EmailShape(i.email.value)
  {
    LoginFieldsMissing(i);
  }

  /** `reply` is the success reply for some stored user whose email is the lower-cased `email` and
      whose hash matches `password`. */
  ghost predicate Authenticated(users: seq<User>, email: string, password: string,
                                compare: (string, string) -> bool, sign: Id -> string, production: bool,
                                reply: AuthReply)
  {
    exists k :: 0 <= k < |users| && users[k].email == ToLower(email) &&
      compare(password, users[k].password) &&
      reply == AuthReply(200, LOGIN_MESSAGE, ViewOf(users[k]), sign(users[k].id), SessionCookie(sign(users[k].id), production))
  }

  /** The part of `login` after the input checks: look the user up by the lower-cased email and
      compare the password with the stored hash. */
  function CheckCredentials(users: seq<User>, email: string, password: string, compare: (string, string) -> bool,
                            sign: Id -> string, production: bool): (r: Result<AuthReply>)
    ensures r.Err? ==> r.error == BAD_CREDENTIALS
    ensures r.Err? <==>
      FindByEmail(users, email).None? || !compare(password, users[FindByEmail(users, email).value].password)
    ensures r.Ok? ==> Authenticated(users, email, password, compare, sign, production, r.value)
  {
    match FindByEmail(users, email)
    case None => Err(BAD_CREDENTIALS)
    case Some(k) =>
      if !compare(password, users[k].password) then Err(BAD_CREDENTIALS)
      else
        var token := sign(users[k].id);
        Ok(AuthReply(200, LOGIN_MESSAGE, ViewOf(users[k]), token, SessionCookie(token, production)))
  }

  /** `login`: `compare` stands for `bcrypt.compare`. An unknown email and a wrong password get
      the same reply. */
  function Login(users: seq<User>, i: LoginInput, compare: (string, string) -> bool, sign: Id -> string,
                 production: bool): (r: Result<AuthReply>)
    ensures LoginGate(i).Some? ==> r == Err(RefusalError(LoginGate(i).value))
    ensures LoginGate(i).None? ==>
      r == CheckCredentials(users, i.email.value, i.password.value, compare, sign, production)
  {
    var gate := LoginGate(i);
    if gate.Some? then Err(RefusalError(gate.value))
    else CheckCredentials(users, i.email.value, i.password.value, compare, sign, production)
  }

  /** `logout`: the session cookie with an empty value, expired at the epoch instead of given an age. */
  function Logout(production: bool): (r: (string, Cookie))
    ensures r.0 == LOGOUT_MESSAGE
    ensures r.1 == SessionCookie("", production).(maxAge := None, expires := Some(0))
  {
    (LOGOUT_MESSAGE, Cookie("token", "", true, production, "strict", None, Some(0)))
  }

  /** The profile `getMe` shows: the view plus the avatar and the creation time, still no password. */
  datatype Profile = Profile(user: UserView, avatar: Option<Avatar>, createdAt: int)

  /** `getMe`: a user deleted after authentication makes the reply throw, which the error handler
      sends as an internal error. */
  function GetMe(users: seq<User>, caller: Id): (r: Result<Profile>)
    ensures r.Err? <==> FindUser(users, caller).None?
    ensures r.Err? ==> r.error == INTERNAL_ERROR
    ensures r.Ok? ==>
      exists k :: 0 <= k < |users| && users[k].id == caller &&
        r.value == Profile(ViewOf(users[k]), users[k].avatar, users[k].createdAt)
  {
    match FindUser(users, caller)
    case None => Err(INTERNAL_ERROR)
    case Some(k) => Ok(Profile(ViewOf(users[k]), users[k].avatar, users[k].createdAt))
  }
}
