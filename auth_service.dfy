/**
 * Registration, login, refresh-token rotation and logout. Every sign-in
 * opens a session holding the hash of a fresh refresh token; `refresh`
 * swaps the presented token's session for a new one, and the logouts
 * revoke sessions. The statements run one after another on the shared
 * client, outside any transaction.
 *
 * Password hashing, refresh-token generation and access-token signing are
 * taken as given: fresh values (ids, raw tokens, password hashes) are
 * parameters, and the deterministic functions are fields of `Crypto`.
 * `ttlSec` is the configured refresh-token lifetime and `now` the
 * database clock.
 */
module AuthService {
  import opened Wrappers
  import opened Db
  import opened Errors
  import UserRepo
  import SessionRepo

  /** `hashRefreshToken`, `verifyPassword` and `signAccessToken`. */
  datatype Crypto = Crypto(
    hashRefresh: string -> string,
    verifyPassword: (string, string) -> bool,
    sign: (Id, Role) -> string)

  /** The user as it is returned to the client: no password hash, no flags. */
  datatype SafeUser = SafeUser(id: Id, role: Role, name: Option<string>, email: string, phone: string)

  datatype AuthResult = AuthResult(user: SafeUser, accessToken: string, refreshToken: string)

  datatype Tokens = Tokens(accessToken: string, refreshToken: string)

  datatype RegisterInput = RegisterInput(name: string, email: string, phone: string, password: string)

  const EmailInUse := Throw(Conflict, "Email already in use")
  const InvalidCredentials := Throw(Unauthorized, "Invalid credentials")
  const MissingToken := Throw(Unauthorized, "Missing refresh token")
  const InvalidToken := Throw(Unauthorized, "Invalid or expired refresh token")
  const UserNotFound := Throw(Unauthorized, "User not found")

  function SafeUserOf(id: Id, u: User): SafeUser {
    SafeUser(id, u.role, u.name, u.email, u.phone)
  }

  /** `!raw`: an absent or empty refresh token. */
  predicate Missing(token: Option<string>) {
    token.None? || token.value == ""
  }

  /**
   * `register`: CONFLICT when the e-mail is in use; otherwise a new
   * customer and one new session for the new refresh token. Each insert
   * can still be refused by a key already in use, and a refused session
   * leaves the user created.
   */
  method Register(db: Database, crypto: Crypto, input: RegisterInput, id: Id, passwordHash: string,
                  rawRt: string, sessionId: Id, ttlSec: int, now: Time) returns (r: Result<AuthResult>)
    requires UserRepo.EmailsUnique(db.users)
    modifies db`users, db`sessions
    ensures UserRepo.EmailTaken(old(db.users), input.email) ==>
      r == Err(EmailInUse) && db.users == old(db.users) && db.sessions == old(db.sessions)
    ensures !UserRepo.EmailTaken(old(db.users), input.email) && id in old(db.users) ==>
      r == Err(DuplicateKey) && db.users == old(db.users) && db.sessions == old(db.sessions)
    ensures !UserRepo.EmailTaken(old(db.users), input.email) && id !in old(db.users) ==>
      var u := UserRepo.NewCustomer(input.name, input.email, input.phone, passwordHash);
      && db.users == old(db.users)[id := u]
      && (SessionRepo.HasId(old(db.sessions), sessionId) ==> r == Err(DuplicateKey) && db.sessions == old(db.sessions))
      && (!SessionRepo.HasId(old(db.sessions), sessionId) ==>
            && db.sessions == old(db.sessions) + [SessionRepo.NewSession(sessionId, id, crypto.hashRefresh(rawRt), None, None, ttlSec, now)]
            && r == Ok(AuthResult(SafeUserOf(id, u), crypto.sign(id, Customer), rawRt)))
  {
    var existing := UserRepo.FindByEmail(db.users, input.email);
    if existing.Some? {
      return Err(EmailInUse);
    }
    var created := UserRepo.Create(db, id, input.name, input.email, input.phone, passwordHash);
    if created.Err? {
      return Err(created.thrown);
    }
    var u := created.value;
    var accessToken := crypto.sign(id, u.role);
    var session := SessionRepo.Create(db, sessionId, id, crypto.hashRefresh(rawRt), None, None, ttlSec, now);
    if session.Err? {
      return Err(session.thrown);
    }
    r := Ok(AuthResult(SafeUserOf(id, u), accessToken, rawRt));
  }

  /** The e-mail belongs to a user with a non-empty password hash that the password verifies against. */
  ghost predicate CredentialsHold(users: map<Id, User>, crypto: Crypto, email: string, password: string) {
    exists k :: k in users && users[k].email == email && users[k].passwordHash.Some? && users[k].passwordHash.value != ""
      && crypto.verifyPassword(password, users[k].passwordHash.value)
  }

  /**
   * `login`: UNAUTHORIZED "Invalid credentials" when the e-mail is
   * unknown, the user's password hash is null or empty (`!u.password_hash`)
   * or the password does not verify;
   * otherwise one new session, recording the client's user agent and IP.
   */
  method Login(db: Database, crypto: Crypto, email: string, password: string, userAgent: Option<string>,
               ip: Option<string>, rawRt: string, sessionId: Id, ttlSec: int, now: Time) returns (r: Result<AuthResult>)
    requires UserRepo.EmailsUnique(db.users)
    modifies db`sessions
    ensures !CredentialsHold(db.users, crypto, email, password) ==>
      r == Err(InvalidCredentials) && db.sessions == old(db.sessions)
    ensures CredentialsHold(db.users, crypto, email, password) ==>
      var k := UserRepo.FindByEmail(db.users, email).value;
      && (SessionRepo.HasId(old(db.sessions), sessionId) ==> r == Err(DuplicateKey) && db.sessions == old(db.sessions))
      && (!SessionRepo.HasId(old(db.sessions), sessionId) ==>
            && db.sessions == old(db.sessions) + [SessionRepo.NewSession(sessionId, k, crypto.hashRefresh(rawRt), userAgent, ip, ttlSec, now)]
            && r == Ok(AuthResult(SafeUserOf(k, db.users[k]), crypto.sign(k, db.users[k].role), rawRt)))
  {
    var found := UserRepo.FindByEmail(db.users, email);
    if found.None? || db.users[found.value].passwordHash.None? || db.users[found.value].passwordHash.value == "" {
      return Err(InvalidCredentials);
    }
    var k := found.value;
    var u := db.users[k];
    var ok := crypto.verifyPassword(password, u.passwordHash.value);
    if !ok {
      return Err(InvalidCredentials);
    }
    var accessToken := crypto.sign(k, u.role);
    var session := SessionRepo.Create(db, sessionId, k, crypto.hashRefresh(rawRt), userAgent, ip, ttlSec, now);
    if session.Err? {
      return Err(session.thrown);
    }
    r := Ok(AuthResult(SafeUserOf(k, u), accessToken, rawRt));
  }

  /** The sessions after rotating `active` into a new session `newId` with the hash `newHash`. */
  function Rotated(sessions: seq<Session>, active: Session, newId: Id, newHash: string, ttlSec: int, now: Time): seq<Session> {
    SessionRepo.Replaced(sessions + [SessionRepo.NewSession(newId, active.userId, newHash, None, None, ttlSec, now)],
                         active.id, newId, now)
  }

  /**
   * `refresh`: UNAUTHORIZED when the token is missing or no active session
   * has its hash; otherwise a new session for the user, the old one
   * revoked and pointed at it, and then the user looked up. When the user
   * is gone it fails with UNAUTHORIZED, but the rotation has already been
   * written.
   */
  method Refresh(db: Database, crypto: Crypto, refreshToken: Option<string>, newRt: string, newId: Id,
                 ttlSec: int, now: Time) returns (r: Result<Tokens>)
    modifies db`sessions
    ensures Missing(refreshToken) ==> r == Err(MissingToken) && db.sessions == old(db.sessions)
    ensures !Missing(refreshToken) ==>
      match SessionRepo.FindActiveByHash(old(db.sessions), crypto.hashRefresh(refreshToken.value), now)
      case None => r == Err(InvalidToken) && db.sessions == old(db.sessions)
      case Some(a) =>
        if SessionRepo.HasId(old(db.sessions), newId) then r == Err(DuplicateKey) && db.sessions == old(db.sessions)
        else
          && db.sessions == Rotated(old(db.sessions), a, newId, crypto.hashRefresh(newRt), ttlSec, now)
          && (a.userId in db.users ==> r == Ok(Tokens(crypto.sign(a.userId, db.users[a.userId].role), newRt)))
          && (a.userId !in db.users ==> r == Err(UserNotFound))
  {
    if Missing(refreshToken) {
      return Err(MissingToken);
    }
    var hash := crypto.hashRefresh(refreshToken.value);
    var active := SessionRepo.FindActiveByHash(db.sessions, hash, now);
    if active.None? {
      return Err(InvalidToken);
    }
    var newHash := crypto.hashRefresh(newRt);
    var created := SessionRepo.Create(db, newId, active.value.userId, newHash, None, None, ttlSec, now);
    if created.Err? {
      return Err(created.thrown);
    }
    SessionRepo.Replace(db, active.value.id, newId, now);
    var user := UserRepo.FindById(db.users, active.value.userId);
    if user.None? {
      return Err(UserNotFound);
    }
    r := Ok(Tokens(crypto.sign(active.value.userId, user.value.role), newRt));
  }

  /**
   * What a rotation leaves behind: the new session, appended and active
   * for the user; the old session revoked and replaced by it, so the old
   * token no longer finds it; every other row as it was; and the new
   * token finds an active session.
   */
  lemma {:induction false} RotationReplacesOld(sessions: seq<Session>, active: Session, newId: Id, newHash: string,
                                              ttlSec: int, now: Time, t: Time)
    requires active in sessions && !SessionRepo.HasId(sessions, newId) && ttlSec > 0
    ensures var after := Rotated(sessions, active, newId, newHash, ttlSec, now);
      && |after| == |sessions| + 1
      && after[|sessions|] == SessionRepo.NewSession(newId, active.userId, newHash, None, None, ttlSec, now)
      && SessionRepo.Active(after[|sessions|], now)
      && (forall s :: s in after && s.id == active.id ==> s.replacedBy == Some(newId) && !SessionRepo.Active(s, t))
      && (forall i :: 0 <= i < |sessions| && sessions[i].id != active.id ==> after[i] == sessions[i])
      && SessionRepo.FindActiveByHash(after, newHash, now).Some?
      && (SessionRepo.FindActiveByHash(after, active.refreshHash, t).Some? ==>
            SessionRepo.FindActiveByHash(after, active.refreshHash, t).value.id != active.id)
  {
    var grown := sessions + [SessionRepo.NewSession(newId, active.userId, newHash, None, None, ttlSec, now)];
    var after := Rotated(sessions, active, newId, newHash, ttlSec, now);
    assert active.id != newId;
    SessionRepo.ReplacedSetsBoth(grown, active.id, newId, now);
    assert after[|sessions|] == grown[|sessions|];
    assert after[|sessions|] in after;
    forall s | s in after && s.id == active.id
      ensures s.replacedBy == Some(newId) && !SessionRepo.Active(s, t)
    {
      var i :| 0 <= i < |after| && after[i] == s;
      assert grown[i].id == active.id;
    }
    var found := SessionRepo.FindActiveByHash(after, active.refreshHash, t);
    if found.Some? {
      assert found.value in after;
    }
  }

  /**
   * `logout`: with no token, or a token no active session has, nothing
   * changes; otherwise that session is revoked.
   */
  method Logout(db: Database, crypto: Crypto, currentRefreshToken: Option<string>, now: Time)
    modifies db`sessions
    ensures Missing(currentRefreshToken) ==> db.sessions == old(db.sessions)
    ensures !Missing(currentRefreshToken) ==>
      match SessionRepo.FindActiveByHash(old(db.sessions), crypto.hashRefresh(currentRefreshToken.value), now)
      case None => db.sessions == old(db.sessions)
      case Some(a) => db.sessions == SessionRepo.Revoked(old(db.sessions), a.id, now)
  {
    if Missing(currentRefreshToken) {
      return;
    }
    var hash := crypto.hashRefresh(currentRefreshToken.value);
    var active := SessionRepo.FindActiveByHash(db.sessions, hash, now);
    if active.Some? {
      SessionRepo.Revoke(db, active.value.id, now);
    }
  }

  /** `logoutAll(userId)`: every unrevoked session of the user is revoked. */
  method LogoutAll(db: Database, userId: Id, now: Time)
    modifies db`sessions
    ensures db.sessions == SessionRepo.RevokedForUser(old(db.sessions), userId, now)
  {
    SessionRepo.RevokeAllForUser(db, userId, now);
  }

  /**
   * After `logout` the presented token no longer finds the session it
   * signed out, at any time.
   */
  lemma LogoutSpendsToken(sessions: seq<Session>, crypto: Crypto, token: string, now: Time, t: Time)
    requires token != ""
    requires SessionRepo.FindActiveByHash(sessions, crypto.hashRefresh(token), now).Some?
    ensures var a := SessionRepo.FindActiveByHash(sessions, crypto.hashRefresh(token), now).value;
      var found := SessionRepo.FindActiveByHash(SessionRepo.Revoked(sessions, a.id, now), crypto.hashRefresh(token), t);
      found.Some? ==> found.value.id != a.id
  {
    var a := SessionRepo.FindActiveByHash(sessions, crypto.hashRefresh(token), now).value;
    SessionRepo.RevokedNotFound(sessions, a.id, now, crypto.hashRefresh(token), t);
  }
}
