/** The relational store behind the ORM client: a user table whose unique
    column is `email`, and an append-only audit table. Every call may fail
    with a storage error; whether it does is an input (`fault`). */
module Prisma {
  import opened Models

  /** Both tables as one value. */
  datatype Db = Db(users: map<string, User>, auditLogs: seq<AuditEntry>)

  /** The user table is keyed by each row's own email. */
  ghost predicate KeyedByEmail(users: map<string, User>)
  {
    forall e :: e in users ==> users[e].email == e
  }

  class Database {
    var users: map<string, User>
    var auditLogs: seq<AuditEntry>

    ghost predicate Valid()
      reads this
    {
      KeyedByEmail(users)
    }

    function State(): (d: Db)
      reads this
      ensures d.users == users && d.auditLogs == auditLogs
    {
      Db(users, auditLogs)
    }

    constructor ()
      ensures Valid()
      ensures users == map[] && auditLogs == []
    {
      users := map[];
      auditLogs := [];
    }

    /** `user.create`: inserts a row with a store-generated `id`. The
        insert fails on a storage error or when the email is already taken
        (the unique constraint); either way the table is unchanged. */
    method CreateUser(id: string, name: string, email: string, passwordHash: string, fault: bool)
      returns (r: Result<User>)
      requires Valid()
      modifies this
      ensures Valid()
      ensures r.Ok? <==> !fault && email !in old(users)
      ensures r.Ok? ==> r.value == User(id, name, email, passwordHash)
      ensures users == if r.Ok? then old(users)[email := r.value] else old(users)
      ensures auditLogs == old(auditLogs)
    {
      if fault || email in users {
        return Failure;
      }
      var user := User(id, name, email, passwordHash);
      users := users[email := user];
      return Ok(user);
    }

    /** `user.findUnique({ where: { email } })`: a read-only lookup. */
    method FindUniqueUser(email: string, fault: bool) returns (r: Result<Option<User>>)
      ensures r.Failure? <==> fault
      ensures r.Ok? ==> (r.value.Some? <==> email in users)
      ensures r.Ok? && r.value.Some? ==> email in users && r.value.value == users[email]
    {
      if fault {
        return Failure;
      }
      if email in users {
        return Ok(Some(users[email]));
      }
      return Ok(None);
    }

    /** `auditLog.create`: appends one row, or fails and appends nothing. */
    method CreateAuditLogRow(entry: AuditEntry, fault: bool) returns (ok: bool)
      modifies this
      ensures ok == !fault
      ensures auditLogs == if ok then old(auditLogs) + [entry] else old(auditLogs)
      ensures users == old(users)
    {
      if fault {
        return false;
      }
      auditLogs := auditLogs + [entry];
      return true;
    }
  }
}
