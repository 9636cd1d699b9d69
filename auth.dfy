/**
 * The authentication service: registration, password login and Google login
 * write a fresh session identifier (`jti`) into the user's row and return an
 * access and a refresh token carrying it. Hashing, signing and the identifier
 * generator are not modelled; they are parameters.
 */
module AuthService {
  import opened Wrappers
  import opened Store
  import opened ErrorHandler

  const SaltRounds: nat := 10
  const AccessLifetime := "24h"
  const RefreshLifetime := "30d"
  /** The password hashed into the row of a user created by Google login. */
  const GooglePlaceholderPassword := "123456"

  /** The payload of every token the service signs. */
  datatype Claims = Claims(email: string, jti: string)

  /** The hashing and signing library, uninterpreted: hash, compare and sign. */
  datatype Crypto = Crypto(
    hash: (string, nat) -> string,
    compare: (string, string) -> bool,
    sign: (Claims, string) -> string)

  /** The user as the service hands it out: id, username and email only. */
  datatype PublicUser = PublicUser(id: nat, username: string, email: string)

  datatype AuthResult = AuthResult(accessToken: string, refreshToken: string, user: PublicUser)

  /** `generateToken`: signs `{email, jti}` with the given lifetime. */
  function GenerateToken(crypto: Crypto, email: string, jti: string, expiresIn: string): string {
    crypto.sign(Claims(email, jti), expiresIn)
  }

  function Public(u: User): PublicUser {
    PublicUser(u.id, u.username, u.email)
  }

  /**
   * The tokens handed out both carry `{email, jti}`, and the user as stored
   * after the call holds `jti` and the refresh token.
   */
  predicate IssuedFor(crypto: Crypto, r: AuthResult, email: string, u: User, jti: string) {
    && r.accessToken == crypto.sign(Claims(email, jti), AccessLifetime)
    && r.refreshToken == crypto.sign(Claims(email, jti), RefreshLifetime)
    && u.jwtId == jti && u.refreshToken == r.refreshToken
    && r.user == PublicUser(u.id, u.username, u.email)
  }

  /** Only the user table (and its id counter) differs between `t` and `t'`. */
  predicate OnlyUsersChange(t: Tables, t': Tables) {
    t' == t.(users := t'.users, nextUserId := t'.nextUserId)
  }

  /**
   * `register`, with `jti` the value the identifier generator returns. An
   * existing email is refused before the passwords are compared.
   */
  function RegisterStep(t: Tables, crypto: Crypto, username: string, email: string,
                        password: string, confirmPassword: string, jti: string): (out: (Tables, Result<AuthResult, Error>))
    ensures email in t.users ==> out == (t, Failure(AppError("User already exists", 400)))
    ensures email !in t.users && password != confirmPassword ==> out == (t, Failure(AppError("Passwords do not match", 400)))
    ensures out.1.Success? <==> email !in t.users && password == confirmPassword
    ensures out.1.Success? ==>
      && out.0.users.Keys == t.users.Keys + {email}
      && (forall e :: e in t.users ==> out.0.users[e] == t.users[e])
      && out.0.users[email] == User(t.nextUserId, username, email, crypto.hash(password, SaltRounds), jti, out.1.value.refreshToken, None)
      && IssuedFor(crypto, out.1.value, email, out.0.users[email], jti)
      && OnlyUsersChange(t, out.0)
  {
    if email in t.users then (t, Failure(AppError("User already exists", 400)))
    else if password != confirmPassword then (t, Failure(AppError("Passwords do not match", 400)))
    else
      var hashed := crypto.hash(password, SaltRounds);
      var access := GenerateToken(crypto, email, jti, AccessLifetime);
      var refresh := GenerateToken(crypto, email, jti, RefreshLifetime);
      var u := User(t.nextUserId, username, email, hashed, jti, refresh, None);
      (t.(users := t.users[email := u], nextUserId := t.nextUserId + 1),
       Success(AuthResult(access, refresh, Public(u))))
  }

  /**
   * `login`: an unknown email is refused with 400, a wrong password with 401;
   * otherwise only the user's `jwtId` and `refreshToken` are replaced.
   */
  function LoginStep(t: Tables, crypto: Crypto, email: string, password: string, jti: string): (out: (Tables, Result<AuthResult, Error>))
    ensures email !in t.users ==> out == (t, Failure(AppError("User does not exist", 400)))
    ensures email in t.users && !crypto.compare(password, t.users[email].password) ==>
      out == (t, Failure(AppError("Invalid credentials", 401)))
    ensures out.1.Success? <==> email in t.users && crypto.compare(password, t.users[email].password)
    ensures out.1.Success? ==>
      && out.0.users == t.users[email := t.users[email].(jwtId := jti, refreshToken := out.1.value.refreshToken)]
      && IssuedFor(crypto, out.1.value, email, out.0.users[email], jti)
      && out.0 == t.(users := out.0.users)
  {
    if email !in t.users then (t, Failure(AppError("User does not exist", 400)))
    else if !crypto.compare(password, t.users[email].password) then (t, Failure(AppError("Invalid credentials", 401)))
    else
      var access := GenerateToken(crypto, email, jti, AccessLifetime);
      var refresh := GenerateToken(crypto, email, jti, RefreshLifetime);
      var u := t.users[email].(jwtId := jti, refreshToken := refresh);
      (t.(users := t.users[email := u]), Success(AuthResult(access, refresh, Public(u))))
  }

  /**
   * `googleLogin`: an upsert on the email. An existing user gets only a new
   * `jwtId` and `refreshToken`; a new one is created with the given username
   * and profile image and the hashed placeholder password.
   */
  function GoogleLoginStep(t: Tables, crypto: Crypto, email: string, username: string,
                           profileImg: string, jti: string): (out: (Tables, AuthResult))
    ensures email in t.users ==>
      && out.0.users == t.users[email := t.users[email].(jwtId := jti, refreshToken := out.1.refreshToken)]
      && out.0 == t.(users := out.0.users)
    ensures email !in t.users ==>
      && out.0.users == t.users[email := User(t.nextUserId, username, email,
           crypto.hash(GooglePlaceholderPassword, SaltRounds), jti, out.1.refreshToken, Some(profileImg))]
      && OnlyUsersChange(t, out.0)
    ensures email in out.0.users && IssuedFor(crypto, out.1, email, out.0.users[email], jti)
  {
    var access := GenerateToken(crypto, email, jti, AccessLifetime);
    var refresh := GenerateToken(crypto, email, jti, RefreshLifetime);
    var hashed := crypto.hash(GooglePlaceholderPassword, SaltRounds);
    var u := if email in t.users then t.users[email].(jwtId := jti, refreshToken := refresh)
             else User(t.nextUserId, username, email, hashed, jti, refresh, Some(profileImg));
    (t.(users := t.users[email := u], nextUserId := if email in t.users then t.nextUserId else t.nextUserId + 1),
     AuthResult(access, refresh, Public(u)))
  }

  /** Each of the three operations keeps the store well formed. */
  lemma RegisterKeepsValid(t: Tables, crypto: Crypto, username: string, email: string,
                           password: string, confirmPassword: string, jti: string)
    requires Valid(t)
    ensures Valid(RegisterStep(t, crypto, username, email, password, confirmPassword, jti).0)
  {
  }

  lemma LoginKeepsValid(t: Tables, crypto: Crypto, email: string, password: string, jti: string)
    requires Valid(t)
    ensures Valid(LoginStep(t, crypto, email, password, jti).0)
  {
  }

  lemma GoogleLoginKeepsValid(t: Tables, crypto: Crypto, email: string, username: string, profileImg: string, jti: string)
    requires Valid(t)
    ensures Valid(GoogleLoginStep(t, crypto, email, username, profileImg, jti).0)
  {
  }

  /** Logging in twice with the same password succeeds twice; the second session replaces the first. */
  lemma SecondLoginReplacesFirst(t: Tables, crypto: Crypto, email: string, password: string, jti1: string, jti2: string)
    requires LoginStep(t, crypto, email, password, jti1).1.Success?
    ensures var t1 := LoginStep(t, crypto, email, password, jti1).0;
            && LoginStep(t1, crypto, email, password, jti2).1.Success?
            && LoginStep(t1, crypto, email, password, jti2).0 == LoginStep(t, crypto, email, password, jti2).0
  {
  }

  /** `register` as the service runs it against the store. */
  method Register(db: Db, crypto: Crypto, username: string, email: string,
                  password: string, confirmPassword: string, jti: string) returns (r: Result<AuthResult, Error>)
    modifies db
    ensures (db.Snapshot(), r) == RegisterStep(old(db.Snapshot()), crypto, username, email, password, confirmPassword, jti)
  {
    if email in db.users {
      return Failure(AppError("User already exists", 400));
    }
    if password != confirmPassword {
      return Failure(AppError("Passwords do not match", 400));
    }
    var hashed := crypto.hash(password, SaltRounds);
    var access := GenerateToken(crypto, email, jti, AccessLifetime);
    var refresh := GenerateToken(crypto, email, jti, RefreshLifetime);
    var u := User(db.nextUserId, username, email, hashed, jti, refresh, None);
    db.users := db.users[email := u];
    db.nextUserId := db.nextUserId + 1;
    r := Success(AuthResult(access, refresh, Public(u)));
  }

  /** `login` as the service runs it against the store. */
  method Login(db: Db, crypto: Crypto, email: string, password: string, jti: string) returns (r: Result<AuthResult, Error>)
    modifies db
    ensures (db.Snapshot(), r) == LoginStep(old(db.Snapshot()), crypto, email, password, jti)
  {
    if email !in db.users {
      return Failure(AppError("User does not exist", 400));
    }
    var user := db.users[email];
    if !crypto.compare(password, user.password) {
      return Failure(AppError("Invalid credentials", 401));
    }
    var access := GenerateToken(crypto, email, jti, AccessLifetime);
    var refresh := GenerateToken(crypto, email, jti, RefreshLifetime);
    var updated := user.(jwtId := jti, refreshToken := refresh);
    db.users := db.users[email := updated];
    r := Success(AuthResult(access, refresh, Public(updated)));
  }

  /** `googleLogin` as the service runs it against the store. */
  method GoogleLogin(db: Db, crypto: Crypto, email: string, username: string, profileImg: string, jti: string)
    returns (r: AuthResult)
    modifies db
    ensures (db.Snapshot(), r) == GoogleLoginStep(old(db.Snapshot()), crypto, email, username, profileImg, jti)
  {
    var access := GenerateToken(crypto, email, jti, AccessLifetime);
    var refresh := GenerateToken(crypto, email, jti, RefreshLifetime);
    var hashed := crypto.hash(GooglePlaceholderPassword, SaltRounds);
    var u: User;
    if email in db.users {
      u := db.users[email].(jwtId := jti, refreshToken := refresh);
    } else {
      u := User(db.nextUserId, username, email, hashed, jti, refresh, Some(profileImg));
      db.nextUserId := db.nextUserId + 1;
    }
    db.users := db.users[email := u];
    r := AuthResult(access, refresh, Public(u));
  }
}
