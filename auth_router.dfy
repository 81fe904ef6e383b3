/**
 * The backend's `/auth` router: registration, login, and the two
 * password-reset endpoints, over a user table keyed by email.
 *
 * bcrypt and jsonwebtoken are not modelled; they are the functions of a
 * `Crypto` value, and the one fact about them the routes rely on,
 * that a password verifies against any hash of itself, is `Sound`.
 */
module AuthRouter {
  import Jwt

  /** A bcrypt digest; what the `password` column holds. */
  type Digest = string

  /** The random salt bcrypt draws for each hash. */
  type Salt = nat

  /** `bcrypt.hash`, `bcrypt.compare`, and `jwt.sign` with the server's secret. */
  datatype Crypto = Crypto(
    hash: (string, Salt) -> Digest,
    compare: (string, Digest) -> bool,
    sign: Jwt.Claims -> string)

  /** A password verifies against every hash of itself. */
  ghost predicate Sound(c: Crypto) {
    forall p: string, s: Salt :: c.compare(p, c.hash(p, s))
  }

  datatype UserRecord = UserRecord(id: nat, name: string, email: string, password: Digest)

  /** The user table: rows by their unique email, and the next autoincrement id. */
  datatype Table = Table(users: map<string, UserRecord>, nextId: nat)

  /** Every row sits under its own email and has an id already handed out; ids are unique. */
  predicate Keyed(t: Table) {
    && (forall e :: e in t.users ==> t.users[e].email == e && t.users[e].id < t.nextId)
    && (forall e1, e2 :: e1 in t.users && e2 in t.users && e1 != e2 ==> t.users[e1].id != t.users[e2].id)
  }

  /** A JSON response body. */
  datatype Body =
    | Error(error: string)
    | Created(id: nat, email: string)
    | Issued(token: string)
    | Message(message: string)

  datatype Response = Response(status: nat, body: Body)

  const InvalidCredentials: Response := Response(401, Error("Invalid credentials"))
  const RegistrationFailed: Response := Response(400, Error("Registration failed"))
  const PasswordUpdated: Response := Response(200, Message("Password updated"))

  /**
   * POST /register. `storeFails` stands for every failure other than a
   * duplicate email that the handler's `catch` absorbs (hashing, the
   * database); `salt` is bcrypt's random salt.
   */
  function RegisterResult(t: Table, c: Crypto, name: string, email: string, password: string,
                          salt: Salt, storeFails: bool): (r: (Response, Table))
    requires Keyed(t)
    ensures Keyed(r.1)
    ensures r.0.status == 200 <==> !storeFails && email !in t.users
    ensures r.0.status != 200 ==> r.0 == RegistrationFailed && r.1 == t
    ensures r.0.status == 200 ==>
      && r.0.body == Created(t.nextId, email)
      && r.1.users == t.users[email := UserRecord(t.nextId, name, email, c.hash(password, salt))]
  {
    if storeFails || email in t.users then (RegistrationFailed, t)
    else
      var row := UserRecord(t.nextId, name, email, c.hash(password, salt));
      (Response(200, Created(row.id, row.email)), Table(t.users[email := row], t.nextId + 1))
  }

  /** POST /login at time `now` (seconds). */
  function LoginResult(t: Table, c: Crypto, email: string, password: string, now: int): (r: Response)
    ensures r.status == 200 <==> email in t.users && c.compare(password, t.users[email].password)
    ensures r.status != 200 ==> r == InvalidCredentials
    ensures r.status == 200 ==> r.body == Issued(c.sign(Jwt.IssueClaims(t.users[email].id, now)))
  {
    if email !in t.users then InvalidCredentials
    else if !c.compare(password, t.users[email].password) then InvalidCredentials
    else Response(200, Issued(c.sign(Jwt.IssueClaims(t.users[email].id, now))))
  }

  /** POST /request-password-reset: a stub that only echoes the address. */
  function ResetRequested(email: string): (r: Response)
    ensures r.status == 200 && r.body.Message?
    ensures |r.body.message| >= |email| && r.body.message[|r.body.message| - |email|..] == email
  {
    Response(200, Message("Password reset link sent to " + email))
  }

  /** POST /reset-password for an email that has a row; no reset token is checked. */
  function ResetResult(t: Table, c: Crypto, email: string, newPassword: string, salt: Salt): (r: (Response, Table))
    requires Keyed(t) && email in t.users
    ensures Keyed(r.1) && r.0 == PasswordUpdated
    ensures r.1.nextId == t.nextId && r.1.users.Keys == t.users.Keys
    ensures r.1.users[email] == t.users[email].(password := c.hash(newPassword, salt))
    ensures forall e :: e in t.users && e != email ==> r.1.users[e] == t.users[e]
  {
    var row := t.users[email].(password := c.hash(newPassword, salt));
    (PasswordUpdated, Table(t.users[email := row], t.nextId))
  }

  /** Login tells an unknown email and a wrong password apart by nothing in its response. */
  lemma UniformLoginFailure(t: Table, c: Crypto, known: string, unknown: string, wrong: string, now: int, later: int)
    requires known in t.users && unknown !in t.users
    requires !c.compare(wrong, t.users[known].password)
    ensures LoginResult(t, c, unknown, wrong, now) == LoginResult(t, c, known, wrong, later) == InvalidCredentials
  {
  }

  /** A user that registered can log in with the same email and password. */
  lemma RegisterThenLogin(t: Table, c: Crypto, name: string, email: string, password: string,
                          salt: Salt, now: int)
    requires Keyed(t) && Sound(c) && email !in t.users
    ensures var (reg, t') := RegisterResult(t, c, name, email, password, salt, false);
      && reg == Response(200, Created(t.nextId, email))
      && LoginResult(t', c, email, password, now) == Response(200, Issued(c.sign(Jwt.Claims(t.nextId, now, now + Jwt.ExpiresIn))))
  {
  }

  /** After a reset, the new password logs the user in and every other row is as before. */
  lemma ResetThenLogin(t: Table, c: Crypto, email: string, newPassword: string, salt: Salt, now: int)
    requires Keyed(t) && Sound(c) && email in t.users
    ensures var t' := ResetResult(t, c, email, newPassword, salt).1;
      && LoginResult(t', c, email, newPassword, now).status == 200
      && (forall e, p :: e != email ==> LoginResult(t', c, e, p, now) == LoginResult(t, c, e, p, now))
  {
  }

  /** The route handlers, with the user table as state that `/register` and `/reset-password` update. */
  class Router {
    const crypto: Crypto
    var users: map<string, UserRecord>
    var nextId: nat

    function Rows(): Table
      reads this
    {
      Table(users, nextId)
    }

    ghost predicate Valid()
      reads this
    {
      Keyed(Rows())
    }

    constructor (crypto: Crypto, existing: Table)
      requires Keyed(existing)
      ensures Valid() && this.crypto == crypto && Rows() == existing
    {
      this.crypto := crypto;
      users := existing.users;
      nextId := existing.nextId;
    }

    method Register(name: string, email: string, password: string, salt: Salt, storeFails: bool)
      returns (res: Response)
      requires Valid()
      modifies this
      ensures Valid()
      ensures (res, Rows()) == RegisterResult(old(Rows()), crypto, name, email, password, salt, storeFails)
    {
      if storeFails || email in users {
        return RegistrationFailed;
      }
      var hashed := crypto.hash(password, salt);
      var row := UserRecord(nextId, name, email, hashed);
      users := users[email := row];
      nextId := nextId + 1;
      res := Response(200, Created(row.id, row.email));
    }

    method Login(email: string, password: string, now: int) returns (res: Response)
      ensures res == LoginResult(Rows(), crypto, email, password, now)
    {
      if email !in users {
        return InvalidCredentials;
      }
      var row := users[email];
      var valid := crypto.compare(password, row.password);
      if !valid {
        return InvalidCredentials;
      }
      var token := crypto.sign(Jwt.IssueClaims(row.id, now));
      res := Response(200, Issued(token));
    }

    method RequestPasswordReset(email: string) returns (res: Response)
      ensures res == ResetRequested(email)
    {
      res := Response(200, Message("Password reset link sent to " + email));
    }

    method ResetPassword(email: string, newPassword: string, salt: Salt) returns (res: Response)
      requires Valid() && email in users
      modifies this
      ensures Valid()
      ensures (res, Rows()) == ResetResult(old(Rows()), crypto, email, newPassword, salt)
    {
      var hashed := crypto.hash(newPassword, salt);
      users := users[email := users[email].(password := hashed)];
      res := PasswordUpdated;
    }
  }
}
