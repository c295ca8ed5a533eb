/** The audit writer `createAuditLog`: it defaults the optional fields of its
    argument, then appends exactly one row to the audit table. */
module AuditLog {
  import opened Models
  import opened Prisma

  /** A TypeScript field of type `T | null` that may also be left out. */
  datatype Nullable<+T> = Undefined | Null | Value(value: T)

  /** The writer's argument: `entityType` and `action` are required, the
      rest may be left out or passed as null. */
  datatype LogParams = LogParams(
    userId: Nullable<string>,
    entityType: EntityType,
    entityId: Nullable<string>,
    action: ActionType,
    oldValues: Nullable<Payload>,
    newValues: Nullable<Payload>,
    metadata: Nullable<Payload>)

  /** An id column: a missing id defaults to null, and null is then written
      as "leave the column unset". */
  function IdColumn(x: Nullable<string>): (r: Option<string>)
    ensures r.Some? <==> x.Value?
    ensures r.Some? ==> r.value == x.value
  {
    var defaulted := if x.Undefined? then Null else x;
    if defaulted.Value? then Some(defaulted.value) else None
  }

  /** A JSON column: a missing value defaults to null; null and supplied
      values are written as they are. */
  function JsonColumn(x: Nullable<Payload>): (r: Option<Payload>)
    ensures r.Some? <==> x.Value?
    ensures r.Some? ==> r.value == x.value
  {
    match x
    case Undefined => None
    case Null => None
    case Value(v) => Some(v)
  }

  /** The row written for `params`. */
  function ToEntry(params: LogParams): (e: AuditEntry)
    ensures e.entityType == params.entityType && e.action == params.action
    ensures e.userId.Some? <==> params.userId.Value?
    ensures e.entityId.Some? <==> params.entityId.Value?
    ensures params.userId.Value? ==> e.userId == Some(params.userId.value)
    ensures params.entityId.Value? ==> e.entityId == Some(params.entityId.value)
    ensures e.oldValues.Some? <==> params.oldValues.Value?
    ensures e.newValues.Some? <==> params.newValues.Value?
    ensures e.metadata.Some? <==> params.metadata.Value?
    ensures params.oldValues.Value? ==> e.oldValues == Some(params.oldValues.value)
    ensures params.newValues.Value? ==> e.newValues == Some(params.newValues.value)
    ensures params.metadata.Value? ==> e.metadata == Some(params.metadata.value)
  {
    AuditEntry(
      IdColumn(params.userId),
      params.entityType,
      IdColumn(params.entityId),
      params.action,
      JsonColumn(params.oldValues),
      JsonColumn(params.newValues),
      JsonColumn(params.metadata))
  }

  /** An id left out and one passed as null give the same row. */
  lemma MissingAndNullIdsAgree(params: LogParams)
    ensures ToEntry(params.(userId := Undefined)) == ToEntry(params.(userId := Null))
    ensures ToEntry(params.(entityId := Undefined)) == ToEntry(params.(entityId := Null))
    ensures ToEntry(params.(userId := Null)).userId == None
    ensures ToEntry(params.(entityId := Null)).entityId == None
  {
  }

  /** `createAuditLog`. A storage error is not caught: it reaches the caller
      (here `ok == false`) and no row is appended. */
  method CreateAuditLog(db: Database, params: LogParams, fault: bool) returns (ok: bool)
    modifies db
    ensures ok == !fault
    ensures db.auditLogs == if ok then old(db.auditLogs) + [ToEntry(params)] else old(db.auditLogs)
    ensures db.users == old(db.users)
  {
    var entry := ToEntry(params);
    ok := db.CreateAuditLogRow(entry, fault);
  }
}
