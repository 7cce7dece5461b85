/**
 * The audit trail: logChange appends an entry unless the old and new values
 * are both null or equal.
 */
module AuditService {
  import opened Wrappers
  import opened Domain
  import opened Store

  /** logChange's guard: skip when both are null, or when old is non-null and equals new. */
  predicate ShouldLog(oldValue: Option<AuditValue>, newValue: Option<AuditValue>) {
    !((oldValue.None? && newValue.None?) || (oldValue.Some? && newValue.Some? && oldValue.value == newValue.value))
  }

  /** The guard writes exactly when the two values differ, nulls included. */
  lemma ShouldLogIffChanged(oldValue: Option<AuditValue>, newValue: Option<AuditValue>)
    ensures ShouldLog(oldValue, newValue) <==> oldValue != newValue
  {
  }

  /** The entries one logChange call appends. */
  function LogEntries(actorId: Id, entityType: string, entityId: Id, fieldName: string,
                      oldValue: Option<AuditValue>, newValue: Option<AuditValue>): (r: seq<AuditEntry>)
    ensures |r| <= 1
    ensures r == [] <==> oldValue == newValue
    ensures r != [] ==> r[0] == AuditEntry(actorId, entityType, entityId, fieldName, oldValue, newValue)
  {
    if ShouldLog(oldValue, newValue) then [AuditEntry(actorId, entityType, entityId, fieldName, oldValue, newValue)]
    else []
  }

  /** logChange: appends at most one entry, carrying exactly the given fields, and changes nothing else. */
  method LogChange(db: Database, actorId: Id, entityType: string, entityId: Id, fieldName: string,
                   oldValue: Option<AuditValue>, newValue: Option<AuditValue>)
    modifies db`auditLog
    ensures db.auditLog == old(db.auditLog) + LogEntries(actorId, entityType, entityId, fieldName, oldValue, newValue)
  {
    if (oldValue.None? && newValue.None?) || (oldValue.Some? && oldValue == newValue) {
      return;
    }
    db.auditLog := db.auditLog + [AuditEntry(actorId, entityType, entityId, fieldName, oldValue, newValue)];
  }
}
