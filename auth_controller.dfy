/** The server's account handlers (`authController.js`): registration, login
    and the profile of the signed-in user, over a user table. Hashing, hash
    comparison and token signing belong to libraries and are given as the
    parameters of `Crypto`; a failure of the table's `create` is given by
    its error code. */
module AuthController {
  import opened Options
  import opened Strings
  import opened Js

  /** A row of the user table; `password` holds the hash. */
  datatype User = User(id: int, name: Option<string>, email: string, password: string)

  /** `bcrypt.hash(p, 10)`, `bcrypt.compare(p, hash)` and `generateToken(id)`. */
  datatype Crypto = Crypto(hash: string -> string, compare: (string, string) -> bool, token: int -> string)

  /** What a handler answers: a message, a session (id, name, e-mail and
      token, never the password) or a profile (id, name and e-mail). */
  datatype Body =
    | Message(message: string)
    | Session(id: int, name: Option<string>, email: string, token: string)
    | Profile(id: int, name: Option<string>, email: string)

  datatype Response = Response(status: int, body: Body)

  function Fail(status: int, message: string): Response {
    Response(status, Message(message))
  }

  const FieldsRequired := "Email and password are required"
  const InvalidEmail := "Please enter a valid email address"
  const ShortPassword := "Password must be at least 6 characters long"
  const UserExists := "User already exists with this email"
  const RegisterFailed := "Registration failed. Please try again."
  const InvalidCredentials := "Invalid credentials"
  const LoginFailed := "Login failed. Please try again."

  /** `users.find(u => u.email === email)`: the table's unique-email lookup. */
  function ByEmail(users: seq<User>, email: string): (r: Option<User>)
    ensures r.None? <==> forall k :: 0 <= k < |users| ==> users[k].email != email
    ensures r.Some? ==> r.value in users && r.value.email == email
  {
    if |users| == 0 then None
    else if users[0].email == email then Some(users[0])
    else ByEmail(users[1..], email)
  }

  /** The lookup by primary key. */
  function ById(users: seq<User>, id: int): (r: Option<User>)
    ensures r.None? <==> forall k :: 0 <= k < |users| ==> users[k].id != id
    ensures r.Some? ==> r.value in users && r.value.id == id
  {
    if |users| == 0 then None
    else if users[0].id == id then Some(users[0])
    else ById(users[1..], id)
  }

  // ---- The checks shared by register and login ----

  /** What the checks before the table is read decide: answer now, or go on
      with a string e-mail and the password as sent. */
  datatype Checked = Stop(response: Response) | Go(email: string, password: JsValue)

  /** `email.includes('@')` on what the body holds: a string's substring test,
      an array's element test; any other value has no `includes` and throws. */
  datatype AtSign = HasAt | NoAt | NoIncludes

  function AtSignOf(email: JsValue): (r: AtSign)
    ensures email.Str? ==> (r == HasAt <==> '@' in email.s)
    ensures !email.Str? && !email.Arr? ==> r == NoIncludes
  {
    match email
    case Str(s) => IncludesChar(s, '@'); if Includes(s, "@") then HasAt else NoAt
    case Arr(es) => if Str("@") in es then HasAt else NoAt
    case _ => NoIncludes
  }

  /** `password.length < 6`: `length` is a string's or array's length, an
      object's own `length` property, and `undefined` (never less) otherwise. */
  predicate TooShort(password: JsValue, eng: Engine) {
    match password
    case Str(s) => |s| < 6
    case Arr(es) => |es| < 6
    case Obj(props) => "length" in props && (match ToNumber(props["length"], eng) case Real(x) => x < 6.0 case NaN => false)
    case _ => false
  }

  /** The guards of `registerUser` (with `checkLength`) or `loginUser` before
      the password is hashed or compared. Reading a field of a `null` body
      throws; so does an e-mail without `includes`; a non-string e-mail that
      gets past the guards is refused by the table's lookup. Every throw
      becomes the handler's 500, `failure`. */
  function Check(body: JsValue, checkLength: bool, failure: Response, eng: Engine): (r: Checked)
    ensures r.Go? ==> body.Obj? || body.Arr? || body.Bool? || body.Num? || body.Str?
    ensures r.Go? ==> Get(body, "email") == Str(r.email) && Get(body, "password") == r.password
    ensures r.Go? ==> '@' in r.email && Truthy(r.password) && (checkLength && r.password.Str? ==> |r.password.s| >= 6)
    ensures r.Stop? ==> r.response == failure || r.response in {Fail(400, FieldsRequired), Fail(400, InvalidEmail), Fail(400, ShortPassword)}
  {
    if body.Null? || body.Undefined? then Stop(failure)
    else
      var email, password := Get(body, "email"), Get(body, "password");
      if !Truthy(email) || !Truthy(password) then Stop(Fail(400, FieldsRequired))
      else
        match AtSignOf(email)
        case NoIncludes => Stop(failure)
        case NoAt => Stop(Fail(400, InvalidEmail))
        case HasAt =>
          if checkLength && TooShort(password, eng) then Stop(Fail(400, ShortPassword))
          else if !email.Str? then Stop(failure)
          else Go(email.s, password)
  }

  /** Missing fields are reported before a malformed e-mail, and a malformed
      e-mail before a short password. */
  lemma CheckOrder(email: string, password: string, eng: Engine)
    ensures Check(Obj(map["password" := Str(password)]), true, Fail(500, RegisterFailed), eng) == Stop(Fail(400, FieldsRequired))
    ensures email != "" && '@' !in email && password != "" ==>
      Check(Obj(map["email" := Str(email), "password" := Str(password)]), true, Fail(500, RegisterFailed), eng) == Stop(Fail(400, InvalidEmail))
    ensures '@' in email && 0 < |password| < 6 ==>
      Check(Obj(map["email" := Str(email), "password" := Str(password)]), true, Fail(500, RegisterFailed), eng) == Stop(Fail(400, ShortPassword))
  {
    var body := Obj(map["email" := Str(email), "password" := Str(password)]);
    assert Get(body, "email") == Str(email) && Get(body, "password") == Str(password);
  }

  /** Login runs the same two guards in the same order, but no length test:
      a short password goes on to the lookup. */
  lemma LoginCheckOrder(email: string, password: string, eng: Engine)
    ensures Check(Obj(map["password" := Str(password)]), false, Fail(500, LoginFailed), eng) == Stop(Fail(400, FieldsRequired))
    ensures email != "" && '@' !in email && password != "" ==>
      Check(Obj(map["email" := Str(email), "password" := Str(password)]), false, Fail(500, LoginFailed), eng) == Stop(Fail(400, InvalidEmail))
    ensures '@' in email && password != "" ==>
      Check(Obj(map["email" := Str(email), "password" := Str(password)]), false, Fail(500, LoginFailed), eng) == Go(email, Str(password))
  {
    var body := Obj(map["email" := Str(email), "password" := Str(password)]);
    assert Get(body, "email") == Str(email) && Get(body, "password") == Str(password);
  }

  // ---- The user table ----

  /** Ids and e-mails are unique, and every id is below the next id. */
  ghost predicate Keyed(users: seq<User>, nextId: int) {
    && (forall i, j :: 0 <= i < j < |users| ==> users[i].id != users[j].id && users[i].email != users[j].email)
    && (forall k :: 0 <= k < |users| ==> users[k].id < nextId)
  }

  /** `name || null` for a string column: a falsy name is stored as `null`; a
      truthy name that is not a string is rejected by the table. */
  datatype StoredName = NameOf(name: Option<string>) | NameRejected

  function StoredNameOf(name: JsValue): (r: StoredName)
    ensures !Truthy(name) ==> r == NameOf(None)
    ensures Truthy(name) && name.Str? ==> r == NameOf(Some(name.s))
  {
    if !Truthy(name) then NameOf(None)
    else if name.Str? then NameOf(Some(name.s))
    else NameRejected
  }

  class UserStore {
    var users: seq<User>
    var nextId: int

    ghost predicate Valid()
      reads this
    {
      Keyed(users, nextId)
    }

    constructor ()
      ensures Valid() && users == [] && nextId == 1
    {
      users := [];
      nextId := 1;
    }

    /** `registerUser`: the guards, then an existing e-mail is a 409, then the
        row is created with the hashed password and the caller gets a session.
        A `create` that fails with code P2002 (another request registered the
        e-mail first) is also a 409; any other failure is a 500. */
    method RegisterUser(body: JsValue, crypto: Crypto, createError: Option<string>, eng: Engine) returns (response: Response)
      requires Valid()
      modifies this
      ensures Valid()
      ensures RegisterStores(old(users), body, createError, eng) ==> (
        var fields := Check(body, true, Fail(500, RegisterFailed), eng);
        var user := User(old(nextId), StoredNameOf(Get(body, "name")).name, fields.email, crypto.hash(fields.password.s));
        && users == old(users) + [user] && nextId == old(nextId) + 1
        && response == Response(201, Session(user.id, user.name, user.email, crypto.token(user.id))))
      ensures !RegisterStores(old(users), body, createError, eng) ==> (
        && users == old(users) && nextId == old(nextId)
        && response == RegisterRefusal(old(users), body, createError, eng))
    {
      var checked := Check(body, true, Fail(500, RegisterFailed), eng);
      if checked.Stop? {
        return checked.response;
      }
      if ByEmail(users, checked.email).Some? {
        return Fail(409, UserExists);
      }
      if !checked.password.Str? {
        return Fail(500, RegisterFailed);
      }
      var name := StoredNameOf(Get(body, "name"));
      if name.NameRejected? {
        return Fail(500, RegisterFailed);
      }
      if createError.Some? {
        return if createError.value == "P2002" then Fail(409, UserExists) else Fail(500, RegisterFailed);
      }
      var user := User(nextId, name.name, checked.email, crypto.hash(checked.password.s));
      users := users + [user];
      nextId := nextId + 1;
      response := Response(201, Session(user.id, user.name, user.email, crypto.token(user.id)));
    }

    /** `loginUser`: the guards, then an unknown e-mail and a wrong password
        give the same 401. Nothing is written. */
    method LoginUser(body: JsValue, crypto: Crypto, eng: Engine) returns (response: Response)
      ensures response == LoginAnswer(users, body, crypto, eng)
    {
      var checked := Check(body, false, Fail(500, LoginFailed), eng);
      if checked.Stop? {
        return checked.response;
      }
      var user := ByEmail(users, checked.email);
      if user.None? {
        return Fail(401, InvalidCredentials);
      }
      if !checked.password.Str? {
        return Fail(500, LoginFailed);
      }
      if !crypto.compare(checked.password.s, user.value.password) {
        return Fail(401, InvalidCredentials);
      }
      response := Response(200, Session(user.value.id, user.value.name, user.value.email, crypto.token(user.value.id)));
    }

    /** `getUserProfile`: the user the token names; never the password. */
    method GetUserProfile(user: JsValue, eng: Engine) returns (response: Response)
      ensures response == ProfileAnswer(users, user, eng)
    {
      var id := ParseInt(user, eng);
      if id.None? {
        return Fail(400, "Invalid user ID");
      }
      var found := ById(users, id.value);
      if found.None? {
        return Fail(404, "User not found");
      }
      response := Response(200, Profile(found.value.id, found.value.name, found.value.email));
    }
  }

  /** Registration reaches `create` and it succeeds. */
  predicate RegisterStores(users: seq<User>, body: JsValue, createError: Option<string>, eng: Engine) {
    var checked := Check(body, true, Fail(500, RegisterFailed), eng);
    && checked.Go? && ByEmail(users, checked.email).None? && checked.password.Str?
    && StoredNameOf(Get(body, "name")).NameOf? && createError.None?
  }

  /** The answer of a registration that stores nothing. */
  function RegisterRefusal(users: seq<User>, body: JsValue, createError: Option<string>, eng: Engine): (r: Response)
    requires !RegisterStores(users, body, createError, eng)
    ensures r.status in {400, 409, 500}
    ensures r.status == 409 <==> (Check(body, true, Fail(500, RegisterFailed), eng).Go? &&
      (ByEmail(users, Check(body, true, Fail(500, RegisterFailed), eng).email).Some? ||
       (Check(body, true, Fail(500, RegisterFailed), eng).password.Str? &&
        StoredNameOf(Get(body, "name")).NameOf? && createError == Some("P2002"))))
    ensures Check(body, true, Fail(500, RegisterFailed), eng).Stop? ==>
      r == Check(body, true, Fail(500, RegisterFailed), eng).response
  {
    var checked := Check(body, true, Fail(500, RegisterFailed), eng);
    if checked.Stop? then checked.response
    else if ByEmail(users, checked.email).Some? then Fail(409, UserExists)
    else if !checked.password.Str? then Fail(500, RegisterFailed)
    else if StoredNameOf(Get(body, "name")).NameRejected? then Fail(500, RegisterFailed)
    else if createError.value == "P2002" then Fail(409, UserExists)
    else Fail(500, RegisterFailed)
  }

  /** The answer of `loginUser` on a table. */
  function LoginAnswer(users: seq<User>, body: JsValue, crypto: Crypto, eng: Engine): (r: Response)
    ensures r.status == 200 <==> (Check(body, false, Fail(500, LoginFailed), eng).Go? &&
      var c := Check(body, false, Fail(500, LoginFailed), eng);
      ByEmail(users, c.email).Some? && c.password.Str? && crypto.compare(c.password.s, ByEmail(users, c.email).value.password))
    ensures r.status == 200 ==> (r.body.Session? && r.body.token == crypto.token(r.body.id) &&
      exists k :: 0 <= k < |users| && users[k].id == r.body.id && users[k].email == r.body.email && users[k].name == r.body.name)
    ensures Check(body, false, Fail(500, LoginFailed), eng).Stop? ==>
      r == Check(body, false, Fail(500, LoginFailed), eng).response
    ensures Check(body, false, Fail(500, LoginFailed), eng).Go? ==> (
      var c := Check(body, false, Fail(500, LoginFailed), eng);
      (ByEmail(users, c.email).None? ==> r == Fail(401, InvalidCredentials)) &&
      (ByEmail(users, c.email).Some? && !c.password.Str? ==> r == Fail(500, LoginFailed)))
  {
    match Check(body, false, Fail(500, LoginFailed), eng)
    case Stop(response) => response
    case Go(email, password) =>
      match ByEmail(users, email)
      case None => Fail(401, InvalidCredentials)
      case Some(u) =>
        if !password.Str? then Fail(500, LoginFailed)
        else if !crypto.compare(password.s, u.password) then Fail(401, InvalidCredentials)
        else
          var k :| 0 <= k < |users| && users[k] == u;
          Response(200, Session(u.id, u.name, u.email, crypto.token(u.id)))
  }

  /** An unknown e-mail and a wrong password are indistinguishable. */
  lemma LoginHidesWhichFailed(users: seq<User>, body: JsValue, crypto: Crypto, eng: Engine)
    requires Check(body, false, Fail(500, LoginFailed), eng).Go?
    requires Check(body, false, Fail(500, LoginFailed), eng).password.Str?
    ensures LoginAnswer(users, body, crypto, eng).status != 200 ==> LoginAnswer(users, body, crypto, eng) == Fail(401, InvalidCredentials)
  {
  }

  /** The answer of `getUserProfile` on a table. */
  function ProfileAnswer(users: seq<User>, user: JsValue, eng: Engine): (r: Response)
    ensures ParseInt(user, eng).None? <==> r == Fail(400, "Invalid user ID")
    ensures r.status == 200 <==> ParseInt(user, eng).Some? && ById(users, ParseInt(user, eng).value).Some?
    ensures r.status == 200 ==> (r.body.Profile? && r.body.id == ParseInt(user, eng).value &&
      exists k :: 0 <= k < |users| && users[k] == User(r.body.id, r.body.name, r.body.email, users[k].password))
    ensures r.status != 200 && ParseInt(user, eng).Some? ==> r == Fail(404, "User not found")
  {
    match ParseInt(user, eng)
    case None => Fail(400, "Invalid user ID")
    case Some(id) =>
      match ById(users, id)
      case None => Fail(404, "User not found")
      case Some(u) =>
        var k :| 0 <= k < |users| && users[k] == u;
        Response(200, Profile(u.id, u.name, u.email))
  }

  /** After a successful registration the same credentials log in, provided
      the hash comparison accepts the password against its own hash. */
  lemma RegisteredCanLogIn(users: seq<User>, nextId: int, body: JsValue, crypto: Crypto, eng: Engine)
    requires Keyed(users, nextId)
    requires RegisterStores(users, body, None, eng)
    requires var c := Check(body, true, Fail(500, RegisterFailed), eng); crypto.compare(c.password.s, crypto.hash(c.password.s))
    ensures var c := Check(body, true, Fail(500, RegisterFailed), eng);
      var user := User(nextId, StoredNameOf(Get(body, "name")).name, c.email, crypto.hash(c.password.s));
      LoginAnswer(users + [user], body, crypto, eng) == Response(200, Session(nextId, user.name, user.email, crypto.token(nextId)))
  {
    var c := Check(body, true, Fail(500, RegisterFailed), eng);
    var user := User(nextId, StoredNameOf(Get(body, "name")).name, c.email, crypto.hash(c.password.s));
    assert Check(body, false, Fail(500, LoginFailed), eng) == Go(c.email, c.password);
    ByEmailAppend(users, user);
  }

  /** Looking up an e-mail that was not in the table finds the appended row. */
  lemma {:induction false} ByEmailAppend(users: seq<User>, user: User)
    requires ByEmail(users, user.email).None?
    ensures ByEmail(users + [user], user.email) == Some(user)
  {
    if |users| > 0 {
      assert (users + [user])[1..] == users[1..] + [user];
      ByEmailAppend(users[1..], user);
    } else {
      assert users + [user] == [user];
    }
  }

  /** Registration keeps the table keyed: the new id is fresh and the e-mail was absent. */
  lemma RegisterKeepsKeyed(users: seq<User>, nextId: int, user: User)
    requires Keyed(users, nextId) && user.id == nextId && ByEmail(users, user.email).None?
    ensures Keyed(users + [user], nextId + 1)
  {
  }
}
