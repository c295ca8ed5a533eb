/** Sequences of requests to the two handlers, and what the audit table and
    the user table look like after them: the audit table only grows, by
    exactly one row per successful request; user rows are never changed or
    removed. */
module AuthTrace {
  import opened Models
  import opened Prisma
  import opened AuthRoutes

  /** One request to one of the handlers, with the storage faults it meets. */
  datatype Call =
    | RegisterCall(rreq: RegisterRequest, newId: string, faults: Faults)
    | LoginCall(lreq: LoginRequest, faults: Faults)

  function Handle(d: Db, c: Call): (Db, Response)
  {
    match c
    case RegisterCall(req, newId, faults) => RegisterSpec(d, req, newId, faults)
    case LoginCall(req, faults) => LoginSpec(d, req, faults)
  }

  /** The calls handled one after another, and their responses in order. */
  function Run(d: Db, calls: seq<Call>): (r: (Db, seq<Response>))
    ensures |r.1| == |calls|
    decreases |calls|
  {
    if calls == [] then (d, [])
    else
      var (d1, res) := Handle(d, calls[0]);
      var (dn, rest) := Run(d1, calls[1..]);
      (dn, [res] + rest)
  }

  /** The rows a call that got `res` is meant to have logged: one row for a
      successful register or login, none otherwise. */
  function Logged(c: Call, res: Response): seq<AuditEntry>
  {
    match (c, res.body)
    case (RegisterCall(_, _, _), UserBody(u)) => [RegisterEntry(u)]
    case (LoginCall(req, _), TokenBody(_, u)) => [LoginEntry(u, req.email)]
    case _ => []
  }

  function LoggedAll(calls: seq<Call>, rs: seq<Response>): seq<AuditEntry>
    requires |calls| == |rs|
    decreases |calls|
  {
    if calls == [] then [] else Logged(calls[0], rs[0]) + LoggedAll(calls[1..], rs[1..])
  }

  predicate Succeeded(res: Response)
  {
    res.status == 200 || res.status == 201
  }

  function Successes(rs: seq<Response>): nat
    decreases |rs|
  {
    if rs == [] then 0 else (if Succeeded(rs[0]) then 1 else 0) + Successes(rs[1..])
  }

  /** One call appends exactly the rows `Logged` names for its response;
      a success logs one row, any other response none. */
  lemma HandleLogs(d: Db, c: Call)
    ensures var (d', res) := Handle(d, c);
      && d'.auditLogs == d.auditLogs + Logged(c, res)
      && |Logged(c, res)| == (if Succeeded(res) then 1 else 0)
  {
  }

  /** Over any sequence of calls, the audit table is the old table followed
      by one row per successful call, in call order, and nothing else. */
  lemma {:induction false} RunLogsEachSuccessOnce(d: Db, calls: seq<Call>)
    ensures var (dn, rs) := Run(d, calls);
      && dn.auditLogs == d.auditLogs + LoggedAll(calls, rs)
      && |LoggedAll(calls, rs)| == Successes(rs)
    decreases |calls|
  {
    if calls != [] {
      var (d1, res) := Handle(d, calls[0]);
      HandleLogs(d, calls[0]);
      RunLogsEachSuccessOnce(d1, calls[1..]);
      var (dn, rs) := Run(d, calls);
      assert rs[0] == res && rs[1..] == Run(d1, calls[1..]).1;
      assert LoggedAll(calls, rs) == Logged(calls[0], res) + LoggedAll(calls[1..], rs[1..]);
    }
  }

  /** The audit table is append-only: earlier rows survive every run. */
  lemma RunOnlyAppends(d: Db, calls: seq<Call>)
    ensures var dn := Run(d, calls).0;
      |d.auditLogs| <= |dn.auditLogs| && dn.auditLogs[..|d.auditLogs|] == d.auditLogs
  {
    RunLogsEachSuccessOnce(d, calls);
  }

  /** No handler changes or removes a user row, and the table stays keyed by
      email. */
  lemma {:induction false} RunKeepsUsers(d: Db, calls: seq<Call>)
    requires KeyedByEmail(d.users)
    ensures var dn := Run(d, calls).0;
      && KeyedByEmail(dn.users)
      && forall e :: e in d.users ==> e in dn.users && dn.users[e] == d.users[e]
    decreases |calls|
  {
    if calls != [] {
      var (d1, _) := Handle(d, calls[0]);
      match calls[0] {
        case RegisterCall(req, newId, faults) => RegisterKeepsKeying(d, req, newId, faults);
        case LoginCall(req, faults) => LoginKeepsKeying(d, req, faults);
      }
      RunKeepsUsers(d1, calls[1..]);
    }
  }
}
