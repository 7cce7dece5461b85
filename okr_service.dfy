/**
 * The OKR mutations: updating, creating and deleting objectives and key
 * results, each guarded by the permission engine, audited, and (for updates
 * of key results and deletions) followed by the progress rollup.
 */
module OkrService {
  import opened Wrappers
  import opened Domain
  import Lists
  import Calculation
  import Permission
  import Queries
  import Rollup
  import opened Store
  import AuditService

  /** The fields a key-result update may carry; an absent field is left as it is. */
  datatype UpdateKeyResultRequest = UpdateKeyResultRequest(
    currentValue: Option<real>, confidenceLevel: Option<string>, comments: Option<string>,
    title: Option<string>, startValue: Option<real>, targetValue: Option<real>,
    deadline: Option<int>, alignedProjects: Option<string>)

  datatype UpdateObjectiveRequest = UpdateObjectiveRequest(title: Option<string>, ownerUserId: Option<Id>)

  datatype CreateKeyResultRequest = CreateKeyResultRequest(
    title: Option<string>, startValue: Option<real>, targetValue: Option<real>, deadline: Option<int>)

  /** The sheet a key result belongs to, through its objective. */
  function SheetOf(kr: KeyResult, objs: map<Id, Objective>, sheets: map<Id, OkrSheet>): OkrSheet
    requires kr.objectiveId in objs && objs[kr.objectiveId].sheetId in sheets
  {
    sheets[objs[kr.objectiveId].sheetId]
  }

  /**
   * The canEdit flag shown with a key result: whether the viewer may edit it,
   * which is exactly whether updateKeyResult and deleteKeyResult let the
   * viewer through.
   */
  function KeyResultEditable(actor: Actor, assignments: seq<RoleAssignment>, kr: KeyResult,
                             objs: map<Id, Objective>, sheets: map<Id, OkrSheet>,
                             departments: map<Id, Department>, users: map<Id, User>): (b: bool)
    requires kr.objectiveId in objs && objs[kr.objectiveId].sheetId in sheets
    ensures kr.ownerId == Some(actor.id) ==> b
    ensures Permission.CanEditSheet(actor, assignments, SheetOf(kr, objs, sheets), departments, users) ==> b
    ensures b ==> kr.ownerId == Some(actor.id)
                  || Permission.CanEditSheet(actor, assignments, SheetOf(kr, objs, sheets), departments, users)
  {
    Permission.CanEditKeyResult(actor, assignments, kr, SheetOf(kr, objs, sheets), departments, users)
  }

  // ---- Audit values ------------------------------------------------------

  /** String.valueOf of a nullable Double: the number, or the text "null". */
  function NumberValue(x: Option<real>): Option<AuditValue> {
    Some(if x.Some? then Number(x.value) else Text("null"))
  }

  function TextValue(s: Option<string>): Option<AuditValue> {
    if s.Some? then Some(Text(s.value)) else None
  }

  /** checkAndAudit compares values with null read as the empty string. */
  function Normalised(v: Option<AuditValue>): AuditValue {
    if v.None? then Text("") else v.value
  }

  /**
   * The entries one checkAndAudit call appends: the raw values are handed to
   * logChange when their normalised forms differ.
   */
  function CheckedEntries(actorId: Id, entityType: string, entityId: Id, fieldName: string,
                          oldValue: Option<AuditValue>, newValue: Option<AuditValue>): (r: seq<AuditEntry>)
    ensures r == [] <==> Normalised(oldValue) == Normalised(newValue)
    ensures r != [] ==> r == [AuditEntry(actorId, entityType, entityId, fieldName, oldValue, newValue)]
  {
    if Normalised(oldValue) != Normalised(newValue) then
      AuditService.LogEntries(actorId, entityType, entityId, fieldName, oldValue, newValue)
    else []
  }

  /** A null and an empty string never produce an entry. */
  lemma NullIsEmptyForAudit(actorId: Id, entityType: string, entityId: Id, fieldName: string)
    ensures CheckedEntries(actorId, entityType, entityId, fieldName, None, Some(Text(""))) == []
    ensures CheckedEntries(actorId, entityType, entityId, fieldName, Some(Text("")), None) == []
  {
  }

  method CheckAndAudit(db: Database, actorId: Id, entityType: string, entityId: Id, fieldName: string,
                       oldValue: Option<AuditValue>, newValue: Option<AuditValue>)
    modifies db`auditLog
    ensures db.auditLog == old(db.auditLog) + CheckedEntries(actorId, entityType, entityId, fieldName, oldValue, newValue)
  {
    var o := if oldValue.None? then Text("") else oldValue.value;
    var n := if newValue.None? then Text("") else newValue.value;
    if o != n {
      AuditService.LogChange(db, actorId, entityType, entityId, fieldName, oldValue, newValue);
    }
  }

  // ---- updateKeyResult ---------------------------------------------------

  /** The key result after an update: present fields overwrite, then progress is recomputed. */
  function ApplyUpdate(kr: KeyResult, req: UpdateKeyResultRequest): (r: KeyResult)
    ensures r.currentValue == req.currentValue.GetOr(kr.currentValue)
    ensures r.confidenceLevel == if req.confidenceLevel.Some? then req.confidenceLevel else kr.confidenceLevel
    ensures r.comments == if req.comments.Some? then req.comments else kr.comments
    ensures r.title == if req.title.Some? then req.title else kr.title
    ensures r.startValue == req.startValue.GetOr(kr.startValue)
    ensures r.targetValue == req.targetValue.GetOr(kr.targetValue)
    ensures r.deadline == if req.deadline.Some? then req.deadline else kr.deadline
    ensures r.alignedProjects == if req.alignedProjects.Some? then req.alignedProjects else kr.alignedProjects
    ensures r.objectiveId == kr.objectiveId && r.ownerId == kr.ownerId
    ensures r.sortOrder == kr.sortOrder && r.weight == kr.weight
    ensures r.computedProgress == Rollup.KrProgressFor(r)
  {
    var k := kr.(currentValue := req.currentValue.GetOr(kr.currentValue),
                 confidenceLevel := if req.confidenceLevel.Some? then req.confidenceLevel else kr.confidenceLevel,
                 comments := if req.comments.Some? then req.comments else kr.comments,
                 title := if req.title.Some? then req.title else kr.title,
                 startValue := req.startValue.GetOr(kr.startValue),
                 targetValue := req.targetValue.GetOr(kr.targetValue),
                 deadline := if req.deadline.Some? then req.deadline else kr.deadline,
                 alignedProjects := if req.alignedProjects.Some? then req.alignedProjects else kr.alignedProjects);
    k.(computedProgress := Rollup.KrProgressFor(k))
  }

  /** Sending the same update twice changes nothing the second time. */
  lemma ApplyUpdateIdempotent(kr: KeyResult, req: UpdateKeyResultRequest)
    ensures ApplyUpdate(ApplyUpdate(kr, req), req) == ApplyUpdate(kr, req)
  {
  }

  /** An update with no field only brings the stored progress up to date. */
  lemma EmptyUpdateOnlyRecomputes(kr: KeyResult)
    ensures ApplyUpdate(kr, UpdateKeyResultRequest(None, None, None, None, None, None, None, None))
            == kr.(computedProgress := Rollup.KrProgressFor(kr))
  {
  }

  /** The three checkAndAudit calls of updateKeyResult, on the stored row and the request. */
  function UpdateAuditTrail(actorId: Id, krId: Id, kr: KeyResult, req: UpdateKeyResultRequest): (r: seq<AuditEntry>)
    ensures |r| <= 3
    ensures forall e :: e in r ==> e.actorId == actorId && e.entityType == "KEY_RESULT" && e.entityId == krId
  {
    CheckedEntries(actorId, "KEY_RESULT", krId, "current_value", NumberValue(Some(kr.currentValue)), NumberValue(req.currentValue))
    + CheckedEntries(actorId, "KEY_RESULT", krId, "confidence_level", TextValue(kr.confidenceLevel), TextValue(req.confidenceLevel))
    + CheckedEntries(actorId, "KEY_RESULT", krId, "comments", TextValue(kr.comments), TextValue(req.comments))
  }

  /**
   * As written, the audit compares the stored value with the request value
   * before the null check of the setters: a request that leaves the current
   * value, the confidence level and the comments out is logged as a change of
   * current_value to "null" and of a set confidence level and set comments to
   * null, although none of the three fields changes.
   */
  lemma UpdateAuditLogsOmittedFields(actorId: Id, krId: Id, kr: KeyResult, req: UpdateKeyResultRequest)
    requires req.currentValue.None? && req.confidenceLevel.None? && req.comments.None?
    requires kr.confidenceLevel.Some? && kr.confidenceLevel.value != ""
    requires kr.comments.Some? && kr.comments.value != ""
    ensures ApplyUpdate(kr, req).currentValue == kr.currentValue
    ensures ApplyUpdate(kr, req).confidenceLevel == kr.confidenceLevel
    ensures ApplyUpdate(kr, req).comments == kr.comments
    ensures UpdateAuditTrail(actorId, krId, kr, req)
            == [AuditEntry(actorId, "KEY_RESULT", krId, "current_value", Some(Number(kr.currentValue)), Some(Text("null"))),
                AuditEntry(actorId, "KEY_RESULT", krId, "confidence_level", Some(Text(kr.confidenceLevel.value)), None),
                AuditEntry(actorId, "KEY_RESULT", krId, "comments", Some(Text(kr.comments.value)), None)]
  {
  }

  // ---- rollup ------------------------------------------------------------

  /** rollupSheet: store the mean over the sheet's objectives as its overall progress. */
  method RollupSheet(db: Database, s: Id)
    requires db.Valid() && s in db.sheets
    modifies db`sheets
    ensures db.Valid()
    ensures db.sheets == Rollup.RollSheet(old(db.sheets), db.objectives, db.nextId, s)
  {
    var objs := Queries.ObjectivesOf(db.objectives, s, db.nextId);
    var p := Calculation.CalculateSheetProgress(objs);
    db.sheets := db.sheets[s := db.sheets[s].(computedOverallProgress := p)];
  }

  /** rollupObjective: store the mean over the objective's key results, then roll up its sheet. */
  method RollupObjective(db: Database, o: Id)
    requires db.Valid() && o in db.objectives
    modifies db`objectives, db`sheets
    ensures db.Valid()
    ensures db.objectives == Rollup.RollObjective(old(db.objectives), db.keyResults, db.nextId, o)
    ensures db.sheets == Rollup.RollSheet(old(db.sheets), db.objectives, db.nextId, old(db.objectives)[o].sheetId)
  {
    var krs := Queries.KeyResultsOf(db.keyResults, o, db.nextId);
    var p := Calculation.CalculateObjectiveProgress(krs);
    ObjectivesKeepLinks(db.sheets, db.objectives, db.objectives[o := db.objectives[o].(computedProgress := p)],
                        db.keyResults, db.nextId);
    db.objectives := db.objectives[o := db.objectives[o].(computedProgress := p)];
    RollupSheet(db, db.objectives[o].sheetId);
  }

  /** The setter calls of updateKeyResult, each skipped when its field is absent, then the recalculation. */
  method SetPresentFields(kr: KeyResult, req: UpdateKeyResultRequest) returns (updated: KeyResult)
    ensures updated == ApplyUpdate(kr, req)
  {
    updated := kr;
    if req.currentValue.Some? { updated := updated.(currentValue := req.currentValue.value); }
    if req.confidenceLevel.Some? { updated := updated.(confidenceLevel := req.confidenceLevel); }
    if req.comments.Some? { updated := updated.(comments := req.comments); }
    if req.title.Some? { updated := updated.(title := req.title); }
    if req.startValue.Some? { updated := updated.(startValue := req.startValue.value); }
    if req.targetValue.Some? { updated := updated.(targetValue := req.targetValue.value); }
    if req.deadline.Some? { updated := updated.(deadline := req.deadline); }
    if req.alignedProjects.Some? { updated := updated.(alignedProjects := req.alignedProjects); }
    updated := updated.(computedProgress :=
      Calculation.KrProgress(updated.startValue, updated.targetValue, updated.currentValue));
  }

  /** The three checkAndAudit calls of updateKeyResult, before any field is set. */
  method AuditKeyResultUpdate(db: Database, actorId: Id, krId: Id, kr: KeyResult, req: UpdateKeyResultRequest)
    modifies db`auditLog
    ensures db.auditLog == old(db.auditLog) + UpdateAuditTrail(actorId, krId, kr, req)
  {
    CheckAndAudit(db, actorId, "KEY_RESULT", krId, "current_value", NumberValue(Some(kr.currentValue)),
                  NumberValue(req.currentValue));
    CheckAndAudit(db, actorId, "KEY_RESULT", krId, "confidence_level", TextValue(kr.confidenceLevel),
                  TextValue(req.confidenceLevel));
    CheckAndAudit(db, actorId, "KEY_RESULT", krId, "comments", TextValue(kr.comments), TextValue(req.comments));
  }

  /**
   * Saves an edited key result (same objective, progress already recomputed)
   * and rolls its objective and sheet up; the stored progress stays consistent.
   */
  method SaveKeyResult(db: Database, krId: Id, updated: KeyResult)
    requires db.Valid() && krId in db.keyResults
    requires updated.objectiveId == db.keyResults[krId].objectiveId
    requires updated.computedProgress == Rollup.KrProgressFor(updated)
    modifies db`keyResults, db`objectives, db`sheets
    ensures db.Valid()
    ensures db.keyResults == old(db.keyResults)[krId := updated]
    ensures db.objectives == Rollup.RollObjective(old(db.objectives), db.keyResults, db.nextId, updated.objectiveId)
    ensures db.sheets == Rollup.RollSheet(old(db.sheets), db.objectives, db.nextId,
                                          old(db.objectives[updated.objectiveId].sheetId))
    ensures old(db.RolledUp()) ==> db.RolledUp()
  {
    ghost var sheets, objs, krs := db.sheets, db.objectives, db.keyResults;
    db.keyResults := db.keyResults[krId := updated];
    RollupObjective(db, updated.objectiveId);
    if Rollup.RolledUp(sheets, objs, krs, db.nextId) {
      Rollup.KeyResultEditKeepsRolledUp(sheets, objs, krs, db.nextId, krId, updated);
    }
  }

  /**
   * updateKeyResult: unknown key result and refused permission change
   * nothing; otherwise the audit entries are written, the present fields
   * overwrite the stored ones, progress is recomputed and rolled up.
   */
  method UpdateKeyResult(db: Database, actor: Actor, krId: Id, req: UpdateKeyResultRequest)
      returns (r: Result<KeyResult, Failure>)
    requires db.Valid()
    modifies db`keyResults, db`objectives, db`sheets, db`auditLog
    ensures db.Valid()
    ensures krId !in old(db.keyResults) ==> r == Failure(NotFound("KeyResult")) && unchanged(db)
    ensures krId in old(db.keyResults) ==>
      var kr := old(db.keyResults[krId]);
      if !old(KeyResultEditable(actor, db.roleAssignments, kr, db.objectives, db.sheets, db.departments, db.users)) then
        r == Failure(AccessDenied) && unchanged(db)
      else
        r == Success(ApplyUpdate(kr, req))
        && db.keyResults == old(db.keyResults)[krId := r.value]
        && db.objectives == Rollup.RollObjective(old(db.objectives), db.keyResults, db.nextId, kr.objectiveId)
        && db.sheets == Rollup.RollSheet(old(db.sheets), db.objectives, db.nextId, old(db.objectives[kr.objectiveId].sheetId))
        && db.auditLog == old(db.auditLog) + UpdateAuditTrail(actor.id, krId, kr, req)
    ensures old(db.RolledUp()) ==> db.RolledUp()
  {
    if krId !in db.keyResults {
      return Failure(NotFound("KeyResult"));
    }
    var kr := db.keyResults[krId];
    if !Permission.CanEditKeyResult(actor, db.roleAssignments, kr, SheetOf(kr, db.objectives, db.sheets),
                                    db.departments, db.users) {
      return Failure(AccessDenied);
    }
    AuditKeyResultUpdate(db, actor.id, krId, kr, req);
    var updated := SetPresentFields(kr, req);
    SaveKeyResult(db, krId, updated);
    r := Success(updated);
  }

  // ---- updateObjective ---------------------------------------------------

  /** The sheet an objective belongs to. */
  function SheetOfObjective(obj: Objective, sheets: map<Id, OkrSheet>): OkrSheet
    requires obj.sheetId in sheets
  {
    sheets[obj.sheetId]
  }

  /** An owner as the audit records it: the user id, or null. */
  function RefValue(id: Option<Id>): Option<AuditValue> {
    if id.Some? then Some(Ref(id.value)) else None
  }

  /** The objective after an update: a present title or owner replaces the stored one, nothing else moves. */
  function EditObjective(obj: Objective, req: UpdateObjectiveRequest): (r: Objective)
    ensures r == obj.(title := r.title, ownerId := r.ownerId)
    ensures r.title == req.title.GetOr(obj.title)
    ensures r.ownerId == if req.ownerUserId.Some? then req.ownerUserId else obj.ownerId
  {
    obj.(title := req.title.GetOr(obj.title),
         ownerId := if req.ownerUserId.Some? then req.ownerUserId else obj.ownerId)
  }

  /** The audit entries of updateObjective: title, then owner, each only when present in the request. */
  function ObjectiveAuditTrail(actorId: Id, o: Id, obj: Objective, req: UpdateObjectiveRequest): (r: seq<AuditEntry>)
    ensures |r| <= 2
    ensures forall e :: e in r ==> e.actorId == actorId && e.entityType == "OBJECTIVE" && e.entityId == o
    ensures req.title.None? && req.ownerUserId.None? ==> r == []
  {
    (if req.title.Some? then
       CheckedEntries(actorId, "OBJECTIVE", o, "title", Some(Text(obj.title)), Some(Text(req.title.value)))
     else [])
    + (if req.ownerUserId.Some? then
         CheckedEntries(actorId, "OBJECTIVE", o, "owner_user_id", RefValue(obj.ownerId), Some(Ref(req.ownerUserId.value)))
       else [])
  }

  /** Re-sending the stored title and owner writes no audit entry and changes nothing. */
  lemma RepeatedObjectiveUpdateIsSilent(actorId: Id, o: Id, obj: Objective, req: UpdateObjectiveRequest)
    requires req.title.Some? ==> req.title.value == obj.title
    requires req.ownerUserId.Some? ==> obj.ownerId == req.ownerUserId
    ensures ObjectiveAuditTrail(actorId, o, obj, req) == []
    ensures EditObjective(obj, req) == obj
  {
  }

  /** A new owner or title is recorded with its old value; the first field in the request comes first. */
  lemma ObjectiveAuditRecordsChanges(actorId: Id, o: Id, obj: Objective, req: UpdateObjectiveRequest)
    requires req.title.Some? && req.title.value != obj.title
    ensures ObjectiveAuditTrail(actorId, o, obj, req)[0]
            == AuditEntry(actorId, "OBJECTIVE", o, "title", Some(Text(obj.title)), Some(Text(req.title.value)))
  {
  }

  /** The checkAndAudit calls of updateObjective, each only for a field present in the request. */
  method AuditObjectiveUpdate(db: Database, actorId: Id, o: Id, obj: Objective, req: UpdateObjectiveRequest)
    modifies db`auditLog
    ensures db.auditLog == old(db.auditLog) + ObjectiveAuditTrail(actorId, o, obj, req)
  {
    if req.title.Some? {
      CheckAndAudit(db, actorId, "OBJECTIVE", o, "title", Some(Text(obj.title)), Some(Text(req.title.value)));
    }
    if req.ownerUserId.Some? {
      CheckAndAudit(db, actorId, "OBJECTIVE", o, "owner_user_id", RefValue(obj.ownerId), Some(Ref(req.ownerUserId.value)));
    }
  }

  /** Saves an objective whose title or owner changed; the stored progress stays consistent. */
  method SaveObjective(db: Database, o: Id, updated: Objective)
    requires db.Valid() && o in db.objectives
    requires updated == db.objectives[o].(title := updated.title, ownerId := updated.ownerId)
    modifies db`objectives
    ensures db.Valid()
    ensures db.objectives == old(db.objectives)[o := updated]
    ensures old(db.RolledUp()) ==> db.RolledUp()
  {
    ghost var sheets, objs, krs, n := db.sheets, db.objectives, db.keyResults, db.nextId;
    db.objectives := db.objectives[o := updated];
    ObjectivesKeepLinks(sheets, objs, db.objectives, krs, n);
    if Rollup.RolledUp(sheets, objs, krs, n) {
      Rollup.ObjectiveEditKeepsRolledUp(sheets, objs, krs, n, o, updated);
    }
  }

  /**
   * updateObjective: unknown objective, refused permission and unknown new
   * owner change nothing; otherwise title and owner are audited and set.
   * Progress, sheet and order are untouched, so no rollup is needed.
   */
  method UpdateObjective(db: Database, actor: Actor, o: Id, req: UpdateObjectiveRequest)
      returns (r: Result<Objective, Failure>)
    requires db.Valid()
    modifies db`objectives, db`auditLog
    ensures db.Valid()
    ensures o !in old(db.objectives) ==> r == Failure(NotFound("Objective")) && unchanged(db)
    ensures o in old(db.objectives)
            && !old(Permission.CanEditSheet(actor, db.roleAssignments, SheetOfObjective(db.objectives[o], db.sheets),
                                            db.departments, db.users))
            ==> r == Failure(AccessDenied) && unchanged(db)
    ensures r.Failure? ==> unchanged(db)
    ensures r.Success? <==>
              o in old(db.objectives)
              && old(Permission.CanEditSheet(actor, db.roleAssignments, SheetOfObjective(db.objectives[o], db.sheets),
                                             db.departments, db.users))
              && (req.ownerUserId.Some? ==> req.ownerUserId.value in db.users)
    ensures r.Success? ==>
              o in old(db.objectives)
              && r.value == EditObjective(old(db.objectives[o]), req)
              && db.objectives == old(db.objectives)[o := r.value]
              && db.auditLog == old(db.auditLog) + ObjectiveAuditTrail(actor.id, o, old(db.objectives[o]), req)
    ensures old(db.RolledUp()) ==> db.RolledUp()
  {
    if o !in db.objectives {
      return Failure(NotFound("Objective"));
    }
    var obj := db.objectives[o];
    if !Permission.CanEditSheet(actor, db.roleAssignments, SheetOfObjective(obj, db.sheets), db.departments, db.users) {
      return Failure(AccessDenied);
    }
    // The owner lookup fails inside the transaction, which then rolls back: nothing is written.
    if req.ownerUserId.Some? && req.ownerUserId.value !in db.users {
      return Failure(NotFound("User"));
    }
    AuditObjectiveUpdate(db, actor.id, o, obj, req);
    var updated := EditObjective(obj, req);
    SaveObjective(db, o, updated);
    r := Success(updated);
  }

  // ---- createObjective ---------------------------------------------------

  /** The sortOrder createObjective gives a new objective of sheet `s`. */
  function NextObjectiveOrder(objs: map<Id, Objective>, s: Id, n: nat): int {
    Queries.NextOrder(objs, Queries.OfSheet(s), n, Calculation.ObjectiveSortKey)
  }

  /**
   * createObjective: unknown sheet and refused permission change nothing; a
   * request without a title is rejected by the non-null title column, and the
   * transaction leaves nothing behind. Otherwise a new objective owned by the
   * actor is appended after its siblings with progress 0.0 and its creation is
   * audited. The sheet is not rolled up.
   */
  method CreateObjective(db: Database, actor: Actor, s: Id, title: Option<string>) returns (r: Result<Id, Failure>)
    requires db.Valid()
    modifies db`objectives, db`auditLog, db`nextId
    ensures db.Valid()
    ensures s !in old(db.sheets) ==> r == Failure(NotFound("Sheet")) && unchanged(db)
    ensures s in old(db.sheets)
            && !old(Permission.CanEditSheet(actor, db.roleAssignments, db.sheets[s], db.departments, db.users))
            ==> r == Failure(AccessDenied) && unchanged(db)
    ensures s in old(db.sheets)
            && old(Permission.CanEditSheet(actor, db.roleAssignments, db.sheets[s], db.departments, db.users))
            && title.None?
            ==> r == Failure(NullColumn("title")) && unchanged(db)
    ensures r.Success? <==>
              s in old(db.sheets)
              && old(Permission.CanEditSheet(actor, db.roleAssignments, db.sheets[s], db.departments, db.users))
              && title.Some?
    ensures r.Success? ==>
              title.Some? && r.value == old(db.nextId) && r.value !in old(db.objectives) && db.nextId == r.value + 1
              && db.objectives == old(db.objectives)[r.value :=
                   Objective(s, title.value, Some(actor.id), NextObjectiveOrder(old(db.objectives), s, old(db.nextId)), 0.0)]
              && db.auditLog == old(db.auditLog) + [AuditEntry(actor.id, "OBJECTIVE", r.value, "created", None, Some(Text(title.value)))]
  {
    if s !in db.sheets {
      return Failure(NotFound("Sheet"));
    }
    if !Permission.CanEditSheet(actor, db.roleAssignments, db.sheets[s], db.departments, db.users) {
      return Failure(AccessDenied);
    }
    if title.None? {
      return Failure(NullColumn("title"));
    }
    var order := NextObjectiveOrder(db.objectives, s, db.nextId);
    var id := db.FreshId();
    db.objectives := db.objectives[id := Objective(s, title.value, Some(actor.id), order, 0.0)];
    AuditService.LogChange(db, actor.id, "OBJECTIVE", id, "created", None, Some(Text(title.value)));
    r := Success(id);
  }

  // ---- createKeyResult ---------------------------------------------------

  /** The sortOrder createKeyResult gives a new key result of objective `o`. */
  function NextKeyResultOrder(krs: map<Id, KeyResult>, o: Id, n: nat): int {
    Queries.NextOrder(krs, Queries.OfObjective(o), n, Calculation.KrSortKey)
  }

  /** The key result createKeyResult stores. */
  function NewKeyResult(o: Id, req: CreateKeyResultRequest, ownerId: Id, sortOrder: int): (kr: KeyResult)
    ensures kr.objectiveId == o && kr.title == req.title && kr.deadline == req.deadline
    ensures kr.startValue == req.startValue.GetOr(0.0) && kr.targetValue == req.targetValue.GetOr(100.0)
    ensures kr.currentValue == kr.startValue && kr.computedProgress == 0.0
    ensures kr.ownerId == Some(ownerId) && kr.confidenceLevel == Some("ON_TRACK")
    ensures kr.sortOrder == sortOrder && kr.weight == 0
    ensures kr.alignedProjects.None? && kr.comments.None?
  {
    var start := req.startValue.GetOr(0.0);
    DefaultKeyResult(o).(title := req.title, startValue := start, targetValue := req.targetValue.GetOr(100.0),
                         currentValue := start, computedProgress := 0.0, ownerId := Some(ownerId),
                         confidenceLevel := Some("ON_TRACK"), deadline := req.deadline, sortOrder := sortOrder)
  }

  /**
   * The stored 0.0 is what the calculator gives a new key result, except on
   * an empty range whose start already reaches the target, where the
   * calculator gives 1.0.
   */
  lemma NewKeyResultProgress(o: Id, req: CreateKeyResultRequest, ownerId: Id, sortOrder: int)
    ensures var kr := NewKeyResult(o, req, ownerId, sortOrder);
            kr.computedProgress == Rollup.KrProgressFor(kr)
            <==> !(Calculation.Abs(kr.targetValue - kr.startValue) < Calculation.Epsilon && kr.startValue >= kr.targetValue)
  {
    var kr := NewKeyResult(o, req, ownerId, sortOrder);
    if Calculation.Abs(kr.targetValue - kr.startValue) >= Calculation.Epsilon {
      Calculation.ZeroOver(kr.targetValue - kr.startValue);
    }
  }

  /**
   * createKeyResult: unknown objective and refused permission change
   * nothing; otherwise a new key result owned by the actor is appended after
   * its siblings and its creation is audited (no entry for a missing title).
   * Neither the objective nor the sheet is rolled up.
   */
  method CreateKeyResult(db: Database, actor: Actor, o: Id, req: CreateKeyResultRequest) returns (r: Result<Id, Failure>)
    requires db.Valid()
    modifies db`keyResults, db`auditLog, db`nextId
    ensures db.Valid()
    ensures o !in old(db.objectives) ==> r == Failure(NotFound("Objective")) && unchanged(db)
    ensures o in old(db.objectives)
            && !old(Permission.CanEditSheet(actor, db.roleAssignments, SheetOfObjective(db.objectives[o], db.sheets),
                                            db.departments, db.users))
            ==> r == Failure(AccessDenied) && unchanged(db)
    ensures r.Success? <==>
              o in old(db.objectives)
              && old(Permission.CanEditSheet(actor, db.roleAssignments, SheetOfObjective(db.objectives[o], db.sheets),
                                             db.departments, db.users))
    ensures r.Success? ==>
              r.value == old(db.nextId) && r.value !in old(db.keyResults) && db.nextId == r.value + 1
              && db.keyResults == old(db.keyResults)[r.value :=
                   NewKeyResult(o, req, actor.id, NextKeyResultOrder(old(db.keyResults), o, old(db.nextId)))]
              && db.auditLog == old(db.auditLog)
                 + AuditService.LogEntries(actor.id, "KEY_RESULT", r.value, "created", None, TextValue(req.title))
  {
    if o !in db.objectives {
      return Failure(NotFound("Objective"));
    }
    if !Permission.CanEditSheet(actor, db.roleAssignments, SheetOfObjective(db.objectives[o], db.sheets),
                                db.departments, db.users) {
      return Failure(AccessDenied);
    }
    var order := NextKeyResultOrder(db.keyResults, o, db.nextId);
    var id := db.FreshId();
    db.keyResults := db.keyResults[id := NewKeyResult(o, req, actor.id, order)];
    AuditService.LogChange(db, actor.id, "KEY_RESULT", id, "created", None, TextValue(req.title));
    r := Success(id);
  }

  // ---- deleteObjective ---------------------------------------------------

  /**
   * Removes an objective with all its key results and rolls its sheet up;
   * a sheet left without objectives is at 0.0, and the stored progress stays
   * consistent.
   */
  method RemoveObjective(db: Database, o: Id)
    requires db.Valid() && o in db.objectives
    modifies db`keyResults, db`objectives, db`sheets
    ensures db.Valid()
    ensures db.keyResults == Rollup.WithoutKeyResultsOf(old(db.keyResults), o)
    ensures db.objectives == old(db.objectives) - {o}
    ensures db.sheets == Rollup.RollSheet(old(db.sheets), db.objectives, db.nextId, old(db.objectives[o].sheetId))
    ensures (forall o2 :: o2 in db.objectives ==> db.objectives[o2].sheetId != old(db.objectives[o].sheetId))
            ==> db.sheets[old(db.objectives[o].sheetId)].computedOverallProgress == 0.0
    ensures old(db.RolledUp()) ==> db.RolledUp()
  {
    var s := db.objectives[o].sheetId;
    ghost var sheets, objs, krs, n := db.sheets, db.objectives, db.keyResults, db.nextId;
    ObjectiveRemovalKeepsLinks(sheets, objs, krs, n, o);
    db.keyResults := Rollup.WithoutKeyResultsOf(db.keyResults, o);
    db.objectives := db.objectives - {o};
    RollupSheet(db, s);
    if Rollup.RolledUp(sheets, objs, krs, n) {
      Rollup.ObjectiveDeleteKeepsRolledUp(sheets, objs, krs, n, o);
    }
    if forall o2 :: o2 in db.objectives ==> db.objectives[o2].sheetId != s {
      Rollup.EmptySheetRollsUpToZero(db.objectives, n, s);
    }
  }

  /**
   * deleteObjective: unknown objective and refused permission change
   * nothing; otherwise the objective's key results and the objective are
   * removed, the deletion is audited and the sheet is rolled up.
   */
  method DeleteObjective(db: Database, actor: Actor, o: Id) returns (r: Result<(), Failure>)
    requires db.Valid()
    modifies db`keyResults, db`objectives, db`sheets, db`auditLog
    ensures db.Valid()
    ensures o !in old(db.objectives) ==> r == Failure(NotFound("Objective")) && unchanged(db)
    ensures o in old(db.objectives)
            && !old(Permission.CanEditSheet(actor, db.roleAssignments, SheetOfObjective(db.objectives[o], db.sheets),
                                            db.departments, db.users))
            ==> r == Failure(AccessDenied) && unchanged(db)
    ensures r.Success? <==>
              o in old(db.objectives)
              && old(Permission.CanEditSheet(actor, db.roleAssignments, SheetOfObjective(db.objectives[o], db.sheets),
                                             db.departments, db.users))
    ensures r.Success? ==>
              o in old(db.objectives)
              && db.keyResults == Rollup.WithoutKeyResultsOf(old(db.keyResults), o)
              && db.objectives == old(db.objectives) - {o}
              && db.sheets == Rollup.RollSheet(old(db.sheets), db.objectives, db.nextId, old(db.objectives[o].sheetId))
              && db.auditLog == old(db.auditLog)
                 + AuditService.LogEntries(actor.id, "OBJECTIVE", o, "deleted", Some(Text(old(db.objectives[o].title))), None)
    ensures old(db.RolledUp()) ==> db.RolledUp()
  {
    if o !in db.objectives {
      return Failure(NotFound("Objective"));
    }
    var obj := db.objectives[o];
    if !Permission.CanEditSheet(actor, db.roleAssignments, SheetOfObjective(obj, db.sheets), db.departments, db.users) {
      return Failure(AccessDenied);
    }
    AuditService.LogChange(db, actor.id, "OBJECTIVE", o, "deleted", Some(Text(obj.title)), None);
    RemoveObjective(db, o);
    r := Success(());
  }

  // ---- deleteKeyResult ---------------------------------------------------

  /**
   * Removes a key result and rolls its objective and sheet up; an objective
   * left without key results is at 0.0, and the stored progress stays
   * consistent.
   */
  method RemoveKeyResult(db: Database, krId: Id)
    requires db.Valid() && krId in db.keyResults
    modifies db`keyResults, db`objectives, db`sheets
    ensures db.Valid()
    ensures db.keyResults == old(db.keyResults) - {krId}
    ensures var o := old(db.keyResults[krId].objectiveId);
            db.objectives == Rollup.RollObjective(old(db.objectives), db.keyResults, db.nextId, o)
            && db.sheets == Rollup.RollSheet(old(db.sheets), db.objectives, db.nextId, old(db.objectives[o].sheetId))
    ensures (forall k :: k in db.keyResults ==> db.keyResults[k].objectiveId != old(db.keyResults[krId].objectiveId))
            ==> db.objectives[old(db.keyResults[krId].objectiveId)].computedProgress == 0.0
    ensures old(db.RolledUp()) ==> db.RolledUp()
  {
    var o := db.keyResults[krId].objectiveId;
    ghost var sheets, objs, krs := db.sheets, db.objectives, db.keyResults;
    db.keyResults := db.keyResults - {krId};
    RollupObjective(db, o);
    if forall k :: k in db.keyResults ==> db.keyResults[k].objectiveId != o {
      Rollup.EmptyObjectiveRollsUpToZero(db.keyResults, db.nextId, o);
    }
    if Rollup.RolledUp(sheets, objs, krs, db.nextId) {
      Rollup.KeyResultDeleteKeepsRolledUp(sheets, objs, krs, db.nextId, krId);
    }
  }

  /**
   * deleteKeyResult: unknown key result and refused permission change
   * nothing; otherwise the deletion is audited (no entry for a missing
   * title), the key result removed and its objective and sheet rolled up.
   */
  method DeleteKeyResult(db: Database, actor: Actor, krId: Id) returns (r: Result<(), Failure>)
    requires db.Valid()
    modifies db`keyResults, db`objectives, db`sheets, db`auditLog
    ensures db.Valid()
    ensures krId !in old(db.keyResults) ==> r == Failure(NotFound("KeyResult")) && unchanged(db)
    ensures krId in old(db.keyResults)
            && !old(KeyResultEditable(actor, db.roleAssignments, db.keyResults[krId], db.objectives, db.sheets,
                                      db.departments, db.users))
            ==> r == Failure(AccessDenied) && unchanged(db)
    ensures r.Success? <==>
              krId in old(db.keyResults)
              && old(KeyResultEditable(actor, db.roleAssignments, db.keyResults[krId], db.objectives, db.sheets,
                                       db.departments, db.users))
    ensures r.Success? ==>
              var kr := old(db.keyResults[krId]);
              db.keyResults == old(db.keyResults) - {krId}
              && db.objectives == Rollup.RollObjective(old(db.objectives), db.keyResults, db.nextId, kr.objectiveId)
              && db.sheets == Rollup.RollSheet(old(db.sheets), db.objectives, db.nextId, old(db.objectives[kr.objectiveId].sheetId))
              && db.auditLog == old(db.auditLog)
                 + AuditService.LogEntries(actor.id, "KEY_RESULT", krId, "deleted", TextValue(kr.title), None)
    ensures old(db.RolledUp()) ==> db.RolledUp()
  {
    if krId !in db.keyResults {
      return Failure(NotFound("KeyResult"));
    }
    var kr := db.keyResults[krId];
    if !Permission.CanEditKeyResult(actor, db.roleAssignments, kr, SheetOf(kr, db.objectives, db.sheets),
                                    db.departments, db.users) {
      return Failure(AccessDenied);
    }
    AuditService.LogChange(db, actor.id, "KEY_RESULT", krId, "deleted", TextValue(kr.title), None);
    RemoveKeyResult(db, krId);
    r := Success(());
  }
}
