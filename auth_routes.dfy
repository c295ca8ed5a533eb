/** The `POST /auth/register` and `POST /auth/login` handlers. Each handler is
    specified by a function from the store before the request to the store
    after it and the HTTP response, and implemented by a method that performs
    the same storage calls in the same order as the route body. */
module AuthRoutes {
  import opened Models
  import opened Prisma
  import opened AuditLog

  const REGISTER_ERROR := "Erro ao registrar usuário."
  const INVALID_CREDENTIALS := "Credenciais inválidas."
  const LOGIN_ERROR := "Erro ao fazer login."
  const FAKE_TOKEN := "FAKE_JWT_TOKEN"

  /** The JSON bodies the two handlers send. */
  datatype Body = UserBody(user: User) | TokenBody(token: string, user: User) | ErrorBody(error: string)

  datatype Response = Response(status: int, body: Body)

  datatype RegisterRequest = RegisterRequest(name: string, email: string, password: string)

  datatype LoginRequest = LoginRequest(email: string, password: string)

  /** Which storage calls of one request throw: the user-table call
      (`create` or `findUnique`) and the audit-table insert. */
  datatype Faults = Faults(userTable: bool, auditTable: bool)

  /** The writer's argument for a registered `user`. */
  function RegisterLogParams(user: User): (p: LogParams)
    ensures p.entityType == USER && p.action == CREATE
    ensures p.userId == p.entityId == Value(user.id)
    ensures p.newValues == Value(UserSnapshot(user))
    ensures p.oldValues.Undefined? && p.metadata.Undefined?
  {
    LogParams(Value(user.id), USER, Value(user.id), CREATE, Undefined, Value(UserSnapshot(user)), Undefined)
  }

  /** The writer's argument for a login of `user` under `email`. */
  function LoginLogParams(user: User, email: string): (p: LogParams)
    ensures p.entityType == AUTH && p.action == LOGIN
    ensures p.userId == p.entityId == Value(user.id)
    ensures p.metadata == Value(Fields(map["email" := email]))
    ensures p.oldValues.Undefined? && p.newValues.Undefined?
  {
    LogParams(Value(user.id), AUTH, Value(user.id), LOGIN, Undefined, Undefined, Value(Fields(map["email" := email])))
  }

  /** The row a successful registration appends. */
  function RegisterEntry(user: User): (e: AuditEntry)
    ensures e == AuditEntry(Some(user.id), USER, Some(user.id), CREATE, None, Some(UserSnapshot(user)), None)
  {
    ToEntry(RegisterLogParams(user))
  }

  /** The row a successful login appends. */
  function LoginEntry(user: User, email: string): (e: AuditEntry)
    ensures e == AuditEntry(Some(user.id), AUTH, Some(user.id), LOGIN, None, None, Some(Fields(map["email" := email])))
  {
    ToEntry(LoginLogParams(user, email))
  }

  /** The register handler as a state transition. `newId` is the id the
      store generates for the new row. */
  function RegisterSpec(d: Db, req: RegisterRequest, newId: string, faults: Faults): (r: (Db, Response))
    ensures r.1.status == 201 <==> !faults.userTable && req.email !in d.users && !faults.auditTable
    ensures r.1.status != 201 ==> r.1 == Response(500, ErrorBody(REGISTER_ERROR)) && r.0.auditLogs == d.auditLogs
    ensures faults.userTable || req.email in d.users ==> r.0 == d
  {
    var user := User(newId, req.name, req.email, req.password);
    if faults.userTable || req.email in d.users then
      (d, Response(500, ErrorBody(REGISTER_ERROR)))
    else if faults.auditTable then
      (Db(d.users[req.email := user], d.auditLogs), Response(500, ErrorBody(REGISTER_ERROR)))
    else
      (Db(d.users[req.email := user], d.auditLogs + [RegisterEntry(user)]), Response(201, UserBody(user)))
  }

  /** The login handler as a state transition. */
  function LoginSpec(d: Db, req: LoginRequest, faults: Faults): (r: (Db, Response))
    ensures r.0.users == d.users
    ensures r.1.status == 200 <==>
      !faults.userTable && req.email in d.users && d.users[req.email].passwordHash == req.password && !faults.auditTable
    ensures r.1.status != 200 ==> r.0 == d
    ensures r.1.status == 401 <==>
      !faults.userTable && (req.email !in d.users || d.users[req.email].passwordHash != req.password)
    ensures r.1.status == 401 ==> r.1.body == ErrorBody(INVALID_CREDENTIALS)
    ensures r.1.status !in {200, 401} ==> r.1 == Response(500, ErrorBody(LOGIN_ERROR))
  {
    if faults.userTable then
      (d, Response(500, ErrorBody(LOGIN_ERROR)))
    else if req.email !in d.users then
      (d, Response(401, ErrorBody(INVALID_CREDENTIALS)))
    else if d.users[req.email].passwordHash != req.password then
      (d, Response(401, ErrorBody(INVALID_CREDENTIALS)))
    else if faults.auditTable then
      (d, Response(500, ErrorBody(LOGIN_ERROR)))
    else
      var user := d.users[req.email];
      (Db(d.users, d.auditLogs + [LoginEntry(user, req.email)]), Response(200, TokenBody(FAKE_TOKEN, user)))
  }

  /** `POST /auth/register`: insert the user with the password as its
      `passwordHash`, then write the audit row; any thrown error becomes a
      500. */
  method Register(db: Database, req: RegisterRequest, newId: string, faults: Faults) returns (res: Response)
    requires db.Valid()
    modifies db
    ensures db.Valid()
    ensures (db.State(), res) == RegisterSpec(old(db.State()), req, newId, faults)
  {
    var created := db.CreateUser(newId, req.name, req.email, req.password, faults.userTable);
    if created.Failure? {
      return Response(500, ErrorBody(REGISTER_ERROR));
    }
    var user := created.value;
    var logged := CreateAuditLog(db, RegisterLogParams(user), faults.auditTable);
    if !logged {
      return Response(500, ErrorBody(REGISTER_ERROR));
    }
    return Response(201, UserBody(user));
  }

  /** `POST /auth/login`: look the user up by email, compare the stored
      `passwordHash` with the submitted password, write the audit row and
      answer with the constant token. */
  method Login(db: Database, req: LoginRequest, faults: Faults) returns (res: Response)
    requires db.Valid()
    modifies db
    ensures db.Valid()
    ensures (db.State(), res) == LoginSpec(old(db.State()), req, faults)
  {
    var found := db.FindUniqueUser(req.email, faults.userTable);
    if found.Failure? {
      return Response(500, ErrorBody(LOGIN_ERROR));
    }
    if found.value.None? {
      return Response(401, ErrorBody(INVALID_CREDENTIALS));
    }
    var user := found.value.value;
    if user.passwordHash != req.password {
      return Response(401, ErrorBody(INVALID_CREDENTIALS));
    }
    var token := FAKE_TOKEN;
    var logged := CreateAuditLog(db, LoginLogParams(user, req.email), faults.auditTable);
    if !logged {
      return Response(500, ErrorBody(LOGIN_ERROR));
    }
    return Response(200, TokenBody(token, user));
  }

  // ---------------------------------------------------------------------
  // Properties of the two handlers

  /** A successful registration stores the submitted password unchanged,
      appends exactly the USER/CREATE row whose new values are the created
      user, and answers 201 with that user. */
  lemma RegisterSuccess(d: Db, req: RegisterRequest, newId: string, faults: Faults)
    requires RegisterSpec(d, req, newId, faults).1.status == 201
    ensures var (d', res) := RegisterSpec(d, req, newId, faults);
      var user := User(newId, req.name, req.email, req.password);
      && user.passwordHash == req.password
      && d'.users == d.users[req.email := user]
      && d'.auditLogs == d.auditLogs + [AuditEntry(Some(newId), USER, Some(newId), CREATE, None, Some(UserSnapshot(user)), None)]
      && res == Response(201, UserBody(user))
  {
  }

  /** Registration is not atomic: when the audit insert throws after the
      user row was inserted, the row stays, nothing is logged, and the client
      still gets the 500 error. */
  lemma RegisterNotAtomic(d: Db, req: RegisterRequest, newId: string, faults: Faults)
    requires !faults.userTable && req.email !in d.users && faults.auditTable
    ensures var (d', res) := RegisterSpec(d, req, newId, faults);
      && d'.users == d.users[req.email := User(newId, req.name, req.email, req.password)]
      && d'.auditLogs == d.auditLogs
      && res == Response(500, ErrorBody(REGISTER_ERROR))
  {
  }

  /** An unknown email and a wrong password give byte-for-byte the same
      response, and neither writes anything. */
  lemma LoginFailuresIndistinguishable(d1: Db, d2: Db, req: LoginRequest, faults: Faults)
    requires !faults.userTable
    requires req.email !in d1.users
    requires req.email in d2.users && d2.users[req.email].passwordHash != req.password
    ensures LoginSpec(d1, req, faults).1 == LoginSpec(d2, req, faults).1 == Response(401, ErrorBody(INVALID_CREDENTIALS))
    ensures LoginSpec(d1, req, faults).0 == d1 && LoginSpec(d2, req, faults).0 == d2
  {
  }

  /** A successful login answers the constant token with the stored user,
      leaves the user table alone and appends exactly the AUTH/LOGIN row. */
  lemma LoginSuccess(d: Db, req: LoginRequest, faults: Faults)
    requires LoginSpec(d, req, faults).1.status == 200
    ensures var (d', res) := LoginSpec(d, req, faults);
      && req.email in d.users
      && res == Response(200, TokenBody("FAKE_JWT_TOKEN", d.users[req.email]))
      && d'.users == d.users
      && d'.auditLogs == d.auditLogs + [AuditEntry(Some(d.users[req.email].id), AUTH, Some(d.users[req.email].id), LOGIN,
                                                   None, None, Some(Fields(map["email" := req.email])))]
  {
  }

  /** Round trip: once a registration of (email, password) has succeeded, a
      login with the same email and password succeeds and returns the
      registered user. */
  lemma RegisterThenLogin(d: Db, req: RegisterRequest, newId: string, faults: Faults, loginFaults: Faults)
    requires RegisterSpec(d, req, newId, faults).1.status == 201
    requires !loginFaults.userTable && !loginFaults.auditTable
    ensures var (d', reg) := RegisterSpec(d, req, newId, faults);
      var (d'', res) := LoginSpec(d', LoginRequest(req.email, req.password), loginFaults);
      && reg.body.UserBody?
      && res == Response(200, TokenBody(FAKE_TOKEN, reg.body.user))
      && d''.users == d'.users
  {
  }

  /** Round trip with a wrong password: after the same registration, any
      other password is refused with the generic 401. */
  lemma RegisterThenWrongPassword(d: Db, req: RegisterRequest, newId: string, faults: Faults, other: string, loginFaults: Faults)
    requires RegisterSpec(d, req, newId, faults).1.status == 201
    requires other != req.password && !loginFaults.userTable
    ensures var (d', _) := RegisterSpec(d, req, newId, faults);
      LoginSpec(d', LoginRequest(req.email, other), loginFaults).1 == Response(401, ErrorBody(INVALID_CREDENTIALS))
  {
  }

  /** Even a 500 from the register handler may leave an account behind that
      the same credentials can log into. */
  lemma FailedRegisterCanStillLogin(d: Db, req: RegisterRequest, newId: string, loginFaults: Faults)
    requires req.email !in d.users
    requires !loginFaults.userTable && !loginFaults.auditTable
    ensures var (d', reg) := RegisterSpec(d, req, newId, Faults(false, true));
      && reg.status == 500
      && LoginSpec(d', LoginRequest(req.email, req.password), loginFaults).1.status == 200
  {
  }

  /** The register handler keeps the user table keyed by email. */
  lemma RegisterKeepsKeying(d: Db, req: RegisterRequest, newId: string, faults: Faults)
    requires KeyedByEmail(d.users)
    ensures KeyedByEmail(RegisterSpec(d, req, newId, faults).0.users)
  {
  }

  /** The login handler keeps the user table keyed by email. */
  lemma LoginKeepsKeying(d: Db, req: LoginRequest, faults: Faults)
    requires KeyedByEmail(d.users)
    ensures KeyedByEmail(LoginSpec(d, req, faults).0.users)
  {
  }
}
