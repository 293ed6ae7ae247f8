/** login of auth_routes.py: validate, register an unknown email on the fly,
    check the password, issue a token. bcrypt and JWT are the Crypto parameter,
    the clock is the now parameter (seconds). */
module AuthRoutes {
  import opened Json
  import opened Web

  /** The users collection: the stored password hash of each email. */
  type Users = map<JsonValue, string>

  /** The claims of the session token. */
  datatype Claims = Claims(email: JsonValue, exp: int)

  /** bcrypt's generate_password_hash and check_password_hash(hash, password),
      and jwt.encode with the server's secret. */
  datatype Crypto = Crypto(hash: string -> string, check: (string, string) -> bool, sign: Claims -> string)

  /** A hash always accepts the password it was made from. */
  ghost predicate Sound(crypto: Crypto)
  {
    forall p :: crypto.check(crypto.hash(p), p)
  }

  /** How long a session token stays valid: two hours. */
  const TokenLifetime := 2 * 60 * 60

  datatype LoginStep = LoginStep(response: Response, users: Users)

  /** POST /auth/login against a users table. */
  function Login(users: Users, body: Request, crypto: Crypto, now: int): (o: LoginStep)
    // a missing or empty email or password: 400, nothing stored
    ensures !Truthy(Get(body, "email")) || !Truthy(Get(body, "password")) ==>
      o == LoginStep(Response(400, Error("Email and password are required")), users)
    // the table only ever gains the requesting email
    ensures o.users.Keys <= users.Keys + {Get(body, "email")}
    ensures forall e :: e in users ==> e in o.users && o.users[e] == users[e]
    // a known email leaves the table as it was
    ensures Get(body, "email") in users ==> o.users == users
    // an unknown email with a string password is stored with its hash, before the password check
    ensures Get(body, "email") !in users && Truthy(Get(body, "email")) && Truthy(Get(body, "password")) &&
            Get(body, "password").Str? ==>
      o.users == users[Get(body, "email") := crypto.hash(Get(body, "password").s)]
    // the verdict follows the password check against the stored hash
    ensures o.response.status == 200 || o.response.status == 401 ==>
      && Get(body, "email") in o.users && Get(body, "password").Str?
      && (o.response.status == 200 <==> crypto.check(o.users[Get(body, "email")], Get(body, "password").s))
    ensures o.response.status == 401 ==> o.response.payload == Error("Invalid credentials")
    ensures o.response.status == 200 ==>
      o.response.payload == LoginSuccess("Login successful", crypto.sign(Claims(Get(body, "email"), now + TokenLifetime)))
    // a truthy password that is not a string: bcrypt raises before anything is stored
    ensures Truthy(Get(body, "email")) && Truthy(Get(body, "password")) && !Get(body, "password").Str? ==>
      o == LoginStep(Response(500, LibraryError), users)
    // string credentials always reach the password check: 200 or 401
    ensures Truthy(Get(body, "email")) && Get(body, "password").Str? && Get(body, "password").s != "" ==>
      o.response.status in {200, 401}
    ensures o.response.status in {200, 400, 401, 500}
  {
    var email := Get(body, "email");
    var password := Get(body, "password");
    if !Truthy(email) || !Truthy(password) then
      LoginStep(Response(400, Error("Email and password are required")), users)
    else if !password.Str? then
      // bcrypt refuses anything but text, when hashing and when checking
      LoginStep(Response(500, LibraryError), users)
    else
      var table := if email in users then users else users[email := crypto.hash(password.s)];
      if !crypto.check(table[email], password.s) then
        LoginStep(Response(401, Error("Invalid credentials")), table)
      else
        LoginStep(Response(200, LoginSuccess("Login successful", crypto.sign(Claims(email, now + TokenLifetime)))), table)
  }

  /** The users collection as the login handler updates it. */
  class UserTable {
    var users: Users

    constructor (initial: Users)
      ensures users == initial
    {
      users := initial;
    }

    /** POST /auth/login. */
    method HandleLogin(body: Request, crypto: Crypto, now: int) returns (r: Response)
      modifies this
      ensures LoginStep(r, users) == Login(old(users), body, crypto, now)
    {
      var email := Get(body, "email");
      var password := Get(body, "password");
      if !Truthy(email) || !Truthy(password) {
        return Response(400, Error("Email and password are required"));
      }
      if !password.Str? {
        return Response(500, LibraryError);
      }
      if email !in users {
        users := users[email := crypto.hash(password.s)];
      }
      var stored := users[email];
      if !crypto.check(stored, password.s) {
        return Response(401, Error("Invalid credentials"));
      }
      r := Response(200, LoginSuccess("Login successful", crypto.sign(Claims(email, now + TokenLifetime))));
    }
  }

  /** With a sound hash, the first login of an email always succeeds, registers
      the email with the hash of its password, and yields a token for that
      email that expires two hours later. */
  lemma FirstLoginSucceeds(users: Users, email: string, password: string, crypto: Crypto, now: int)
    requires Sound(crypto)
    requires email != "" && password != "" && Str(email) !in users
    ensures var o := Login(users, map["email" := Str(email), "password" := Str(password)], crypto, now);
      && o.users == users[Str(email) := crypto.hash(password)]
      && o.response == Response(200, LoginSuccess("Login successful", crypto.sign(Claims(Str(email), now + 7200))))
  {
    var body := map["email" := Str(email), "password" := Str(password)];
    assert Get(body, "email") == Str(email) && Get(body, "password") == Str(password);
    assert crypto.check(crypto.hash(password), password);
  }

  /** Logging in again with the password an email was registered with
      succeeds and changes nothing. */
  lemma SecondLoginSucceeds(users: Users, email: string, password: string, crypto: Crypto, now: int)
    requires Sound(crypto)
    requires email != "" && password != "" && Str(email) !in users
    ensures var body := map["email" := Str(email), "password" := Str(password)];
      var first := Login(users, body, crypto, now);
      var second := Login(first.users, body, crypto, now);
      second.response.status == 200 && second.users == first.users
  {
    FirstLoginSucceeds(users, email, password, crypto, now);
  }
}
