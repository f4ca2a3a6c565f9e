/**
 * The sessions table behind refresh tokens. A session row holds the hash
 * of one refresh token; it can be used while it is not revoked and not
 * expired. Revoking stamps `revoked_at`; replacing also records the
 * session that took its place. `now` stands for the database's `NOW()`.
 * The table keeps its rows in insertion order, which is the order a
 * lookup sees them in.
 */
module SessionRepo {
  import opened Wrappers
  import opened Db
  import opened Errors

  /** A session that may still be used: not revoked and not yet expired at `now`. */
  predicate Active(s: Session, now: Time) {
    s.revokedAt.None? && now < s.expiresAt
  }

  /** Some row already has this id (the primary key). */
  predicate HasId(sessions: seq<Session>, id: Id) {
    exists i :: 0 <= i < |sessions| && sessions[i].id == id
  }

  /** The row `create` inserts: created now, expiring `ttlSec` seconds later, neither revoked nor replaced. */
  function NewSession(id: Id, userId: Id, refreshHash: string, userAgent: Option<string>, ip: Option<string>,
                      ttlSec: int, now: Time): (s: Session)
    ensures s.id == id && s.userId == userId && s.refreshHash == refreshHash
    ensures s.createdAt == now && s.expiresAt - s.createdAt == ttlSec
    ensures s.revokedAt.None? && s.replacedBy.None?
  {
    Session(id, userId, refreshHash, userAgent, ip, now, now + ttlSec, None, None)
  }

  /** A new session with a positive lifetime is active from its creation until it expires, and not after. */
  lemma NewSessionLifetime(id: Id, userId: Id, refreshHash: string, userAgent: Option<string>, ip: Option<string>,
                           ttlSec: int, now: Time, t: Time)
    requires ttlSec > 0
    ensures now <= t < now + ttlSec ==> Active(NewSession(id, userId, refreshHash, userAgent, ip, ttlSec, now), t)
    ensures t >= now + ttlSec ==> !Active(NewSession(id, userId, refreshHash, userAgent, ip, ttlSec, now), t)
  {
  }

  /** `create`: insert a session; the primary key refuses an id already in use. */
  method Create(db: Database, id: Id, userId: Id, refreshHash: string, userAgent: Option<string>, ip: Option<string>,
                ttlSec: int, now: Time) returns (r: Result<Session>)
    modifies db`sessions
    ensures HasId(old(db.sessions), id) ==> r == Err(DuplicateKey) && db.sessions == old(db.sessions)
    ensures !HasId(old(db.sessions), id) ==>
      && r == Ok(NewSession(id, userId, refreshHash, userAgent, ip, ttlSec, now))
      && db.sessions == old(db.sessions) + [r.value]
  {
    if HasId(db.sessions, id) {
      return Err(DuplicateKey);
    }
    var s := NewSession(id, userId, refreshHash, userAgent, ip, ttlSec, now);
    db.sessions := db.sessions + [s];
    r := Ok(s);
  }

  /**
   * `findActiveByHash`: the first row with that refresh hash that is
   * active at `now`, or nothing when no such row exists.
   */
  function FindActiveByHash(sessions: seq<Session>, hash: string, now: Time): (r: Option<Session>)
    ensures r.Some? ==> r.value in sessions && r.value.refreshHash == hash && Active(r.value, now)
    ensures r.None? <==> forall s :: s in sessions ==> !(s.refreshHash == hash && Active(s, now))
  {
    if sessions == [] then None
    else if sessions[0].refreshHash == hash && Active(sessions[0], now) then Some(sessions[0])
    else FindActiveByHash(sessions[1..], hash, now)
  }

  /** The table after `UPDATE sessions SET revoked_at = NOW() WHERE id = $1`. */
  function Revoked(sessions: seq<Session>, id: Id, now: Time): seq<Session> {
    seq(|sessions|, i requires 0 <= i < |sessions| =>
      if sessions[i].id == id then sessions[i].(revokedAt := Some(now)) else sessions[i])
  }

  /** The table after `UPDATE sessions SET replaced_by = $2, revoked_at = NOW() WHERE id = $1`. */
  function Replaced(sessions: seq<Session>, oldId: Id, newId: Id, now: Time): seq<Session> {
    seq(|sessions|, i requires 0 <= i < |sessions| =>
      if sessions[i].id == oldId then sessions[i].(replacedBy := Some(newId), revokedAt := Some(now)) else sessions[i])
  }

  /** The table after `UPDATE sessions SET revoked_at = NOW() WHERE user_id = $1 AND revoked_at IS NULL`. */
  function RevokedForUser(sessions: seq<Session>, userId: Id, now: Time): seq<Session> {
    seq(|sessions|, i requires 0 <= i < |sessions| =>
      if sessions[i].userId == userId && sessions[i].revokedAt.None? then sessions[i].(revokedAt := Some(now))
      else sessions[i])
  }

  /** `revoke(id)`. */
  method Revoke(db: Database, id: Id, now: Time)
    modifies db`sessions
    ensures db.sessions == Revoked(old(db.sessions), id, now)
  {
    db.sessions := Revoked(db.sessions, id, now);
  }

  /** `replace(oldId, newId)`. */
  method Replace(db: Database, oldId: Id, newId: Id, now: Time)
    modifies db`sessions
    ensures db.sessions == Replaced(old(db.sessions), oldId, newId, now)
  {
    db.sessions := Replaced(db.sessions, oldId, newId, now);
  }

  /** `revokeAllForUser(userId)`. */
  method RevokeAllForUser(db: Database, userId: Id, now: Time)
    modifies db`sessions
    ensures db.sessions == RevokedForUser(old(db.sessions), userId, now)
  {
    db.sessions := RevokedForUser(db.sessions, userId, now);
  }

  /**
   * Revoking touches exactly the rows with that id: they are never active
   * again, and every other row is as it was.
   */
  lemma RevokedExactlyThatId(sessions: seq<Session>, id: Id, now: Time)
    ensures |Revoked(sessions, id, now)| == |sessions|
    ensures forall i, t :: 0 <= i < |sessions| && sessions[i].id == id ==> !Active(Revoked(sessions, id, now)[i], t)
    ensures forall i :: 0 <= i < |sessions| && sessions[i].id != id ==> Revoked(sessions, id, now)[i] == sessions[i]
  {
  }

  /**
   * Replacing revokes the old rows and points them at their successor;
   * every other row is as it was.
   */
  lemma ReplacedSetsBoth(sessions: seq<Session>, oldId: Id, newId: Id, now: Time)
    ensures |Replaced(sessions, oldId, newId, now)| == |sessions|
    ensures forall i :: 0 <= i < |sessions| && sessions[i].id == oldId ==>
      var s := Replaced(sessions, oldId, newId, now)[i];
      s.replacedBy == Some(newId) && s.revokedAt == Some(now) && s.refreshHash == sessions[i].refreshHash
    ensures forall i :: 0 <= i < |sessions| && sessions[i].id != oldId ==> Replaced(sessions, oldId, newId, now)[i] == sessions[i]
  {
  }

  /**
   * After revoking all of a user's sessions none of them is active at any
   * time; rows that were already revoked keep their original stamp, and
   * other users' rows are untouched.
   */
  lemma RevokedForUserOnlyUnrevoked(sessions: seq<Session>, userId: Id, now: Time)
    ensures |RevokedForUser(sessions, userId, now)| == |sessions|
    ensures forall s, t :: s in RevokedForUser(sessions, userId, now) && s.userId == userId ==> !Active(s, t)
    ensures forall i :: 0 <= i < |sessions| && (sessions[i].userId != userId || sessions[i].revokedAt.Some?) ==>
      RevokedForUser(sessions, userId, now)[i] == sessions[i]
  {
  }

  /** Nothing is active after being revoked, so a revoked token is never found again. */
  lemma RevokedNotFound(sessions: seq<Session>, id: Id, now: Time, hash: string, t: Time)
    ensures var r := FindActiveByHash(Revoked(sessions, id, now), hash, t); r.Some? ==> r.value.id != id
  {
  }

  /**
   * Revoking all of a user's sessions means none of that user's refresh
   * tokens can be used any more.
   */
  lemma RevokedForUserNotFound(sessions: seq<Session>, userId: Id, now: Time, hash: string, t: Time)
    ensures var r := FindActiveByHash(RevokedForUser(sessions, userId, now), hash, t); r.Some? ==> r.value.userId != userId
  {
    RevokedForUserOnlyUnrevoked(sessions, userId, now);
  }
}
