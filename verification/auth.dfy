/** Credential issuing: `POST /api/auth/login` and `POST /api/auth/signup`. Both validate
    the body, normalise the identifiers, consult the user table, then sign a token whose
    claims come from the stored user and set it as a cookie. */
module Auth {
  import opened Js
  import opened Text
  import opened Store

  /** A row of the `User` table. `password` is the bcrypt hash, never the password. */
  datatype User = User(username: string, email: string, password: string, role: string)

  /** What the handlers return about a user: everything but the hash. */
  datatype PublicUser = PublicUser(id: string, username: string, email: string, role: string)

  /** The `token` cookie's options. */
  datatype SessionCookie = SessionCookie(value: string, httpOnly: bool, secure: bool,
                                         sameSite: string, maxAge: nat)

  datatype AuthReply =
    | Refused(status: int, error: string)
    | Issued(status: int, user: PublicUser, token: string, cookie: SessionCookie)

  /** `bcrypt.compare(password, hash)` */
  type Compare = (string, string) -> bool
  /** `bcrypt.hash(password, cost)` */
  type Hash = (string, nat) -> string
  /** `jwt.sign(claims, secret, { expiresIn })` with the secret fixed; the lifetime in seconds. */
  type Signer = (Val, nat) -> string

  /** Seven days, the token's `expiresIn` and the cookie's `maxAge`. */
  const SevenDays: nat := 7 * 24 * 60 * 60

  const BcryptCost: nat := 12

  const InvalidCredentials := "Invalid credentials"
  const ServerError := "Internal server error"

  /** The payload signed into the token: exactly the user's id, name and role. */
  function ClaimsOf(id: string, u: User): (c: Val)
    ensures c.Obj? && c.fields.Keys == {"userId", "username", "role"}
    ensures Get(c, "userId") == Str(id) && Get(c, "role") == Str(u.role)
    ensures Get(c, "username") == Str(u.username)
  {
    Obj(map["userId" := Str(id), "username" := Str(u.username), "role" := Str(u.role)])
  }

  function Public(row: Row<User>): (p: PublicUser)
    ensures p.id == row.id && p.username == row.data.username
    ensures p.email == row.data.email && p.role == row.data.role
  {
    PublicUser(row.id, row.data.username, row.data.email, row.data.role)
  }

  /** The cookie both handlers set; `secure` only when `NODE_ENV` is production. */
  function Cookie(token: string, production: bool): (c: SessionCookie)
    ensures c.value == token && c.httpOnly && c.sameSite == "strict" && c.maxAge == 604800
    ensures c.secure <==> production
  {
    SessionCookie(token, true, production, "strict", SevenDays)
  }

  /** The response to a user who has been authenticated or created. */
  function Issue(status: int, row: Row<User>, sign: Signer, production: bool): (r: AuthReply)
    ensures r.Issued? && r.status == status && r.user == Public(row)
    ensures r.token == sign(ClaimsOf(row.id, row.data), SevenDays) && r.cookie == Cookie(r.token, production)
  {
    var token := sign(ClaimsOf(row.id, row.data), SevenDays);
    Issued(status, Public(row), token, Cookie(token, production))
  }

  /** The login identifier as looked up: `String(email).trim().toLowerCase()`. */
  function LoginEmail(v: Val): (r: Option<string>)
    ensures r.Some? <==> Truthy(v)
    ensures r.Some? ==> r.value == ToLower(Trim(StringOf(v)))
  {
    if Truthy(v) then Some(ToLower(Trim(StringOf(v)))) else None
  }

  /** `String(username).trim()` */
  function LoginUsername(v: Val): (r: Option<string>)
    ensures r.Some? <==> Truthy(v)
    ensures r.Some? ==> r.value == Trim(StringOf(v))
  {
    if Truthy(v) then Some(Trim(StringOf(v))) else None
  }

  /** One disjunct of the `OR` list; a falsy (empty) identifier is dropped from the list. */
  predicate MatchesField(wanted: Option<string>, actual: string)
  {
    wanted.Some? && wanted.value != "" && actual == wanted.value
  }

  predicate MatchesLogin(email: Option<string>, username: Option<string>, u: User)
  {
    MatchesField(email, u.email) || MatchesField(username, u.username)
  }

  /** `findFirst({ where: { OR: [...] } })`: the first row, in table order, that matches. */
  function FindLogin(rows: seq<Row<User>>, email: Option<string>, username: Option<string>): (r: Option<nat>)
    ensures r.Some? ==> r.value < |rows| && MatchesLogin(email, username, rows[r.value].data)
    ensures r.Some? ==> forall k :: 0 <= k < r.value ==> !MatchesLogin(email, username, rows[k].data)
    ensures r.None? <==> forall k :: 0 <= k < |rows| ==> !MatchesLogin(email, username, rows[k].data)
    decreases |rows|
  {
    if rows == [] then None
    else if MatchesLogin(email, username, rows[0].data) then Some(0)
    else match FindLogin(rows[1..], email, username)
      case None => None
      case Some(k) => Some(k + 1)
  }

  /** `POST /api/auth/login`. `body` is `None` when `request.json()` throws. */
  function Login(body: Option<Val>, rows: seq<Row<User>>, compare: Compare, sign: Signer,
                 production: bool): (r: AuthReply)
    ensures body.None? || !Destructurable(body.value) ==> r == Refused(500, ServerError)
    ensures body.Some? && Destructurable(body.value)
            && ((!Truthy(Get(body.value, "email")) && !Truthy(Get(body.value, "username")))
                || !Truthy(Get(body.value, "password"))) ==>
              r == Refused(400, "Email or username and password are required")
    ensures body.Some? && Destructurable(body.value)
            && (Truthy(Get(body.value, "email")) || Truthy(Get(body.value, "username")))
            && Truthy(Get(body.value, "password"))
            && FindLogin(rows, LoginEmail(Get(body.value, "email")), LoginUsername(Get(body.value, "username"))).None? ==>
              r == Refused(401, InvalidCredentials)
    ensures r.Refused? ==> r.status in {400, 401, 500}
    ensures r.Issued? ==> r.status == 200
  {
    if body.None? || !Destructurable(body.value) then Refused(500, ServerError)
    else
      var email, username, password := Get(body.value, "email"), Get(body.value, "username"),
                                        Get(body.value, "password");
      if (!Truthy(email) && !Truthy(username)) || !Truthy(password) then
        Refused(400, "Email or username and password are required")
      else match FindLogin(rows, LoginEmail(email), LoginUsername(username))
        case None => Refused(401, InvalidCredentials)
        case Some(k) =>
          // bcryptjs rejects a password that is not a string
          if !password.Str? then Refused(500, ServerError)
          else if !compare(password.s, rows[k].data.password) then Refused(401, InvalidCredentials)
          else Issue(200, rows[k], sign, production)
  }

  /** What `Login` promises: the validation chain, the indistinguishable refusals, and on
      success a token and user drawn from the first stored user that matches. */
  lemma LoginSpec(body: Option<Val>, rows: seq<Row<User>>, compare: Compare, sign: Signer, production: bool)
    ensures var r := Login(body, rows, compare, sign, production);
      && (body.Some? && Destructurable(body.value) && !Truthy(Get(body.value, "password")) ==> r == Refused(400, "Email or username and password are required"))
      && (r.Refused? && r.status == 401 ==> r.error == InvalidCredentials)
      && (r.Issued? ==>
            body.Some? && r.status == 200
            && (exists k :: 0 <= k < |rows| && r == Issue(200, rows[k], sign, production)
                  && MatchesLogin(LoginEmail(Get(body.value, "email")), LoginUsername(Get(body.value, "username")), rows[k].data)
                  && compare(Get(body.value, "password").s, rows[k].data.password)))
  {
    var r := Login(body, rows, compare, sign, production);
    if r.Issued? {
      var k := FindLogin(rows, LoginEmail(Get(body.value, "email")), LoginUsername(Get(body.value, "username"))).value;
      assert r == Issue(200, rows[k], sign, production);
    }
  }

  /** An unknown identifier and a wrong password get the same response. */
  lemma UnknownUserAndWrongPasswordAlike(body: Val, rows: seq<Row<User>>, compare: Compare,
                                         sign: Signer, production: bool, k: nat)
    requires Destructurable(body) && Truthy(Get(body, "password")) && Get(body, "password").Str?
    requires Truthy(Get(body, "email")) || Truthy(Get(body, "username"))
    requires FindLogin(rows, LoginEmail(Get(body, "email")), LoginUsername(Get(body, "username"))) == Some(k)
    requires !compare(Get(body, "password").s, rows[k].data.password)
    ensures Login(Some(body), rows, compare, sign, production)
            == Login(Some(body), [], compare, sign, production)
            == Refused(401, InvalidCredentials)
  {
  }

  /** The signup validation, in the order the handler runs it; `Ok` carries the new row's data. */
  datatype SignupCheck = Reject(status: int, error: string) | Accept(user: User)

  predicate Conflicts(u: User, email: string, username: string)
  {
    u.email == email || u.username == username
  }

  function CheckSignup(body: Option<Val>, rows: seq<Row<User>>, hash: Hash): (c: SignupCheck)
    ensures c.Accept? ==>
              && body.Some? && Get(body.value, "password").Str? && Get(body.value, "email").Str?
              && Get(body.value, "username").Str?
              && |Get(body.value, "password").s| >= 6
              && c.user == User(Get(body.value, "username").s, Trim(ToLower(Get(body.value, "email").s)),
                                hash(Get(body.value, "password").s, BcryptCost), "admin")
    ensures c.Accept? ==> forall k :: 0 <= k < |rows| ==> !Conflicts(rows[k].data, c.user.email, c.user.username)
    ensures body.Some? && Destructurable(body.value)
            && Truthy(Get(body.value, "username")) && Truthy(Get(body.value, "email")) && Truthy(Get(body.value, "password"))
            && !(Length(Get(body.value, "password")).Some? && Length(Get(body.value, "password")).value < 6)
            && Get(body.value, "email").Str? && Get(body.value, "username").Str? ==>
              && (c == Reject(409, "User with this email or username already exists") <==>
                    exists k :: 0 <= k < |rows| &&
                      Conflicts(rows[k].data, Trim(ToLower(Get(body.value, "email").s)), Get(body.value, "username").s))
              && (Get(body.value, "password").Str? && c.Reject? ==> c.status == 409)
  {
    if body.None? || !Destructurable(body.value) then Reject(500, ServerError)
    else
      var username, email, password := Get(body.value, "username"), Get(body.value, "email"),
                                        Get(body.value, "password");
      if !Truthy(username) || !Truthy(email) || !Truthy(password) then
        Reject(400, "All fields are required")
      // `password.length < 6` is false for a value without a length, which goes on
      else if Length(password).Some? && Length(password).value < 6 then
        Reject(400, "Password must be at least 6 characters long")
      // `email.toLowerCase()` throws unless email is a string; a non-string username
      // is refused by the database query
      else if !email.Str? || !username.Str? then Reject(500, ServerError)
      else
        var normalized := Trim(ToLower(email.s));
        if exists k :: 0 <= k < |rows| && Conflicts(rows[k].data, normalized, username.s) then
          Reject(409, "User with this email or username already exists")
        // bcrypt.hash rejects a password that is not a string
        else if !password.Str? then Reject(500, ServerError)
        else Accept(User(username.s, normalized, hash(password.s, BcryptCost), "admin"))
  }

  /** A rejected signup is one of the statuses the handler uses, each for its own reason. */
  lemma CheckSignupStatuses(body: Option<Val>, rows: seq<Row<User>>, hash: Hash)
    ensures var c := CheckSignup(body, rows, hash);
      && (c.Reject? ==> c.status in {400, 409, 500})
      && (body.Some? && Destructurable(body.value) && !Truthy(Get(body.value, "password")) ==> c.Reject? && c.status == 400)
      && (body.None? || !Destructurable(body.value) ==> c == Reject(500, ServerError))
      && (body.Some? && Destructurable(body.value)
          && (!Truthy(Get(body.value, "username")) || !Truthy(Get(body.value, "email"))) ==>
            c == Reject(400, "All fields are required"))
      && (body.Some? && Destructurable(body.value) && Truthy(Get(body.value, "password"))
          && Length(Get(body.value, "password")).Some? && Length(Get(body.value, "password")).value < 6
          && Truthy(Get(body.value, "username")) && Truthy(Get(body.value, "email")) ==>
            c == Reject(400, "Password must be at least 6 characters long"))
  {
  }

  /** The user table with `POST /api/auth/signup` as its one writer. */
  class UserStore {
    var table: Table<User>

    ghost predicate Valid()
      reads this, table
    {
      table.Valid()
    }

    constructor (t: Table<User>)
      requires t.Valid()
      ensures this.table == t && Valid()
    {
      table := t;
    }

    /** `POST /api/auth/signup`; `id` stands for the id the database generates. */
    method Signup(body: Option<Val>, id: string, hash: Hash, sign: Signer, production: bool)
      returns (r: AuthReply)
      requires Valid() && id !in Ids(table.rows)
      modifies table
      ensures Valid()
      ensures match CheckSignup(body, old(table.rows), hash)
        case Reject(status, error) => r == Refused(status, error) && table.rows == old(table.rows)
        case Accept(user) =>
          table.rows == old(table.rows) + [Row(id, user)]
          && r == Issue(201, Row(id, user), sign, production)
    {
      var c := CheckSignup(body, table.rows, hash);
      match c
      case Reject(status, error) =>
        r := Refused(status, error);
      case Accept(user) =>
        table.Create(id, user);
        r := Issue(201, Row(id, user), sign, production);
    }
  }

  /** Login normalises an e-mail as signup stores it: trimming then lower-casing gives the
      same text as lower-casing then trimming, and doing either again changes nothing. */
  lemma {:induction false} LoginFindsSignupEmail(email: string)
    ensures ToLower(Trim(StringOf(Str(Trim(ToLower(email)))))) == Trim(ToLower(email))
    ensures ToLower(Trim(email)) == Trim(ToLower(email))
  {
    TrimOfLower(email);
    var t := Trim(ToLower(email));
    TrimIdempotent(ToLower(email));
    ToLowerIdempotent(Trim(email));
    assert ToLower(Trim(t)) == ToLower(t);
  }

  /** A user who has just signed up can log in with the same e-mail and password: the new
      row is the first (and only) one that matches, and the token names it. */
  lemma {:induction false} SignupThenLogin(rows: seq<Row<User>>, id: string, email: string,
                                          username: string, password: string,
                                          compare: Compare, hash: Hash, sign: Signer, production: bool)
    requires forall p :: compare(p, hash(p, BcryptCost))
    requires email != "" && username != "" && |password| >= 6
    requires Trim(ToLower(email)) != ""
    requires forall k :: 0 <= k < |rows| ==> !Conflicts(rows[k].data, Trim(ToLower(email)), username)
    ensures var user := User(username, Trim(ToLower(email)), hash(password, BcryptCost), "admin");
      Login(Some(Obj(map["email" := Str(email), "password" := Str(password)])),
            rows + [Row(id, user)], compare, sign, production)
      == Issue(200, Row(id, user), sign, production)
  {
    var user := User(username, Trim(ToLower(email)), hash(password, BcryptCost), "admin");
    var rows' := rows + [Row(id, user)];
    var body := Obj(map["email" := Str(email), "password" := Str(password)]);
    LoginFindsSignupEmail(email);
    var wanted := LoginEmail(Str(email));
    assert wanted == Some(Trim(ToLower(email)));
    assert Get(body, "email") == Str(email) && Get(body, "password") == Str(password);
    assert Get(body, "username") == Undef;
    assert LoginUsername(Get(body, "username")) == None;
    SignupRowFoundFirst(rows, Row(id, user));
    assert compare(password, hash(password, BcryptCost));
    LoginIssues(body, rows', compare, sign, production, |rows'| - 1);
  }

  /** The same, starting from the body signup accepted: logging in with its e-mail and
      password yields the row signup appended. */
  lemma SignupAcceptedThenLogin(body: Val, rows: seq<Row<User>>, id: string, compare: Compare,
                                hash: Hash, sign: Signer, production: bool)
    requires forall p :: compare(p, hash(p, BcryptCost))
    requires CheckSignup(Some(body), rows, hash).Accept?
    requires CheckSignup(Some(body), rows, hash).user.email != ""
    ensures Login(Some(Obj(map["email" := Get(body, "email"), "password" := Get(body, "password")])),
                  rows + [Row(id, CheckSignup(Some(body), rows, hash).user)], compare, sign, production)
            == Issue(200, Row(id, CheckSignup(Some(body), rows, hash).user), sign, production)
  {
    var user := CheckSignup(Some(body), rows, hash).user;
    SignupThenLogin(rows, id, Get(body, "email").s, user.username, Get(body, "password").s,
                    compare, hash, sign, production);
  }

  lemma LoginIssues(body: Val, rows: seq<Row<User>>, compare: Compare, sign: Signer, production: bool, k: nat)
    requires Destructurable(body) && Get(body, "password").Str? && Get(body, "password").s != ""
    requires Truthy(Get(body, "email")) || Truthy(Get(body, "username"))
    requires FindLogin(rows, LoginEmail(Get(body, "email")), LoginUsername(Get(body, "username"))) == Some(k)
    requires compare(Get(body, "password").s, rows[k].data.password)
    ensures Login(Some(body), rows, compare, sign, production) == Issue(200, rows[k], sign, production)
  {
  }

  /** A row appended with an e-mail no other row has is the first one a login by that e-mail finds. */
  lemma SignupRowFoundFirst(rows: seq<Row<User>>, row: Row<User>)
    requires row.data.email != ""
    requires forall k :: 0 <= k < |rows| ==> !Conflicts(rows[k].data, row.data.email, row.data.username)
    ensures FindLogin(rows + [row], Some(row.data.email), None) == Some(|rows|)
  {
    var rows' := rows + [row];
    forall k | 0 <= k < |rows'| - 1
      ensures !MatchesLogin(Some(row.data.email), None, rows'[k].data)
    {
      assert rows'[k] == rows[k];
    }
    assert rows'[|rows'| - 1] == row;
    FindLast(rows', Some(row.data.email));
  }

  lemma {:induction false} FindLast(rows: seq<Row<User>>, email: Option<string>)
    requires |rows| > 0 && MatchesLogin(email, None, rows[|rows| - 1].data)
    requires forall k :: 0 <= k < |rows| - 1 ==> !MatchesLogin(email, None, rows[k].data)
    ensures FindLogin(rows, email, None) == Some(|rows| - 1)
  {
    var r := FindLogin(rows, email, None);
    assert r.Some?;
  }
}
