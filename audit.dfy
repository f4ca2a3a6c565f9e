/** `AuditService.append`: one row in `audit_log` per call. */
module AuditService {
  import opened Wrappers
  import opened Db

  /** `value ?? null`: an undefined document is stored as JSON null. */
  function Stored(value: Option<Json>): (j: Json)
    ensures value.Some? ==> j == value.value
    ensures value.None? ==> j == JNull
  {
    value.GetOr(JNull)
  }

  /** The row `append` inserts: actor, entity, entity id and action verbatim, the documents as stored, the clock's time. */
  function Entry(actorUserId: Id, entity: string, entityId: Id, action: string,
                 before: Option<Json>, after: Option<Json>, now: Time): (e: AuditEntry)
    ensures e.actorUserId == actorUserId && e.entity == entity && e.entityId == entityId && e.action == action
    ensures e.before == Stored(before) && e.after == Stored(after) && e.createdAt == now
  {
    AuditEntry(actorUserId, entity, entityId, action, Stored(before), Stored(after), now)
  }

  /**
   * `append(input)` on the client the service was built with. The model has
   * one shared client, so a service built on a transaction handle writes
   * inside that transaction and its row is undone by a rollback.
   */
  method Append(db: Database, actorUserId: Id, entity: string, entityId: Id, action: string,
                before: Option<Json>, after: Option<Json>, now: Time)
    modifies db`audit
    ensures db.audit == old(db.audit) + [Entry(actorUserId, entity, entityId, action, before, after, now)]
  {
    db.audit := db.audit + [Entry(actorUserId, entity, entityId, action, before, after, now)];
  }
}
