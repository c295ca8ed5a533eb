/** The records and enumerations that the ORM client generates and that the
    handlers and the audit writer exchange. Only the columns the code reads or
    writes are modelled. */
module Models {

  datatype Option<+T> = None | Some(value: T)

  /** The outcome of one storage call: a value, or a thrown storage error. */
  datatype Result<+T> = Ok(value: T) | Failure

  /** The two `EntityType` members the code uses. */
  datatype EntityType = USER | AUTH

  /** The two `ActionType` members the code uses. */
  datatype ActionType = CREATE | LOGIN

  /** A row of the user table. `passwordHash` holds whatever the register
      handler stored there, which is the submitted password itself. */
  datatype User = User(id: string, name: string, email: string, passwordHash: string)

  /** The JSON values the handlers put into an audit row: a snapshot of a
      user record, or a small object of string fields such as `{ email }`. */
  datatype Payload = UserSnapshot(user: User) | Fields(fields: map<string, string>)

  /** A row of the audit table. For the two ids, `None` means the column was
      left unset; for the three JSON columns, `None` means JSON null. */
  datatype AuditEntry = AuditEntry(
    userId: Option<string>,
    entityType: EntityType,
    entityId: Option<string>,
    action: ActionType,
    oldValues: Option<Payload>,
    newValues: Option<Payload>,
    metadata: Option<Payload>)
}
