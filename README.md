# Session and audit boundary of meu-gerente, modelled in Dafny

This project models three pieces of the web application's session and audit
boundary:

- **Edge session gate** (`frontend/middleware.ts`). A pure decision on each
  request's path and cookies. The request either passes through, goes to
  `/login?from=<path>`, or goes to `/dashboard`. Module `Middleware`,
  file `middleware.dfy`.
- **Auth route handlers** (`backend/src/routers/auth.routes.ts`). These are
  `POST /auth/register` and `POST /auth/login`, modelled as methods over a
  `Database` object (module `AuthRoutes`, file `auth_routes.dfy`). Each method
  is proved equal to a state-transition function (`RegisterSpec`,
  `LoginSpec`). The properties are lemmas about those functions. Module
  `AuthTrace` (`auth_trace.dfy`) extends them to any sequence of requests.
- **Audit writer** (`backend/src/utils/auditLog.ts`). `createAuditLog`
  normalises its optional fields and appends one row. Module `AuditLog`,
  file `audit_log.dfy`.

The ORM store is the class `Prisma.Database` (`prisma.dfy`). It holds a user
table, a `map` keyed by email (the table's unique column), and an
append-only audit table, a `seq`. Each storage call takes a `fault` input that
says whether the call throws. This is how the handlers' 500 branches are
reached. The row types are in `models.dfy`.

The model follows the code as written, including where its TODO comments promise otherwise:

- passwords are stored and compared in plaintext;
- the token is the constant `FAKE_JWT_TOKEN`;
- register does no duplicate-email pre-check. A taken email makes the insert
  fail on the unique constraint, and the client sees the same generic 500 as
  any other storage error;
- login looks the user up by `email` only;
- the register audit row's `newValues` and the login response both carry the
  whole user record. That record includes `passwordHash`, which is the
  plaintext password (`AuthRoutes.RegisterSuccess`, `AuthRoutes.LoginSuccess`);
- register is not atomic. If the audit insert fails after the user row was
  inserted, the row stays and the response is 500.

## Model

| member | source | states |
|---|---|---|
| Prisma.Database.CreateUser | backend/src/routers/auth.routes.ts:15-21 | the insert succeeds iff no storage error and the email is free; on success the table gains exactly the new row under its email, otherwise nothing changes; the audit table is untouched |
| Prisma.Database.FindUniqueUser | backend/src/routers/auth.routes.ts:43 | read-only lookup by email: fails iff the storage errors, otherwise finds a user iff the email is a key, and then the stored row |
| Prisma.Database.CreateAuditLogRow | backend/src/utils/auditLog.ts:26-36 | appends exactly the given row, or on a storage error appends nothing; the user table is untouched |
| AuditLog.IdColumn | backend/src/utils/auditLog.ts:17-30 | an id is written iff it was supplied as a value; a missing or null id leaves the column unset |
| AuditLog.JsonColumn | backend/src/utils/auditLog.ts:21-34 | a missing or null JSON value is written as null; a supplied value is written unchanged |
| AuditLog.ToEntry | backend/src/utils/auditLog.ts:15-37 | the row keeps entityType and action exactly; each id and JSON field is present iff supplied, and it then equals the supplied value |
| AuditLog.MissingAndNullIdsAgree | backend/src/utils/auditLog.ts:17-30 | leaving an id out and passing null give the same row, and that row has no id |
| AuditLog.CreateAuditLog | backend/src/utils/auditLog.ts:15-37 | one call appends exactly ToEntry(params) and keeps all earlier rows; a storage error reaches the caller and appends nothing |
| AuthRoutes.RegisterLogParams | backend/src/routers/auth.routes.ts:23-29 | the register call passes USER/CREATE, userId = entityId = the new id, newValues = the created user, and leaves oldValues and metadata out |
| AuthRoutes.LoginLogParams | backend/src/routers/auth.routes.ts:56-62 | the login call passes AUTH/LOGIN, userId = entityId = the user's id, metadata = { email }, and leaves oldValues and newValues out |
| AuthRoutes.RegisterEntry | backend/src/routers/auth.routes.ts:23-29 | the register row is USER/CREATE with userId = entityId = the new id, newValues = the created user, no old values, no metadata |
| AuthRoutes.LoginEntry | backend/src/routers/auth.routes.ts:56-62 | the login row is AUTH/LOGIN with userId = entityId = the user's id and metadata = { email }, no old or new values |
| AuthRoutes.RegisterSpec | backend/src/routers/auth.routes.ts:10-36 | 201 iff the user insert and the audit insert both succeed; every other outcome is 500 'Erro ao registrar usuário.' with no audit row; a failed insert changes nothing |
| AuthRoutes.LoginSpec | backend/src/routers/auth.routes.ts:39-69 | user table never changed; 200 iff lookup succeeds, email known, password equal and audit insert succeeds; 401 'Credenciais inválidas.' iff the lookup succeeds but email unknown or password wrong; any other outcome is 500 'Erro ao fazer login.'; nothing stored on a non-200 |
| AuthRoutes.Register | backend/src/routers/auth.routes.ts:10-36 | the insert-then-audit sequence with its early returns yields exactly RegisterSpec's new store and response, and keeps the table keyed by email |
| AuthRoutes.Login | backend/src/routers/auth.routes.ts:39-69 | the lookup, password check, constant token and audit write yield exactly LoginSpec's new store and response |
| AuthRoutes.RegisterSuccess | backend/src/routers/auth.routes.ts:15-31 | on 201 the stored passwordHash is the submitted password, the table gains that user, exactly the USER/CREATE row is appended, and the body is that user |
| AuthRoutes.RegisterNotAtomic | backend/src/routers/auth.routes.ts:15-35 | when only the audit insert fails, the user row remains, nothing is logged, and the response is still the 500 error |
| AuthRoutes.LoginFailuresIndistinguishable | backend/src/routers/auth.routes.ts:44-51 | an unknown email and a wrong password get identical 401 responses, and neither changes the store |
| AuthRoutes.LoginSuccess | backend/src/routers/auth.routes.ts:43-64 | a 200 carries the constant FAKE_JWT_TOKEN and the stored user, leaves the user table unchanged and appends exactly the AUTH/LOGIN row |
| AuthRoutes.RegisterThenLogin | backend/src/routers/auth.routes.ts:19-64 | after a successful register of (email, password), login with the same pair (without faults) answers 200 with the registered user |
| AuthRoutes.RegisterThenWrongPassword | backend/src/routers/auth.routes.ts:19-51 | after the same register, any other password gets the generic 401 |
| AuthRoutes.FailedRegisterCanStillLogin | backend/src/routers/auth.routes.ts:15-50 | a register that answered 500 due to the audit insert still leaves an account that the same credentials log into |
| AuthRoutes.RegisterKeepsKeying | backend/src/routers/auth.routes.ts:15-21 | register keeps every user row stored under its own email |
| AuthRoutes.LoginKeepsKeying | backend/src/routers/auth.routes.ts:43-64 | login keeps every user row stored under its own email |
| AuthTrace.HandleLogs | backend/src/routers/auth.routes.ts:23-64 | one request appends exactly one row when it succeeds (200 or 201) and none otherwise |
| AuthTrace.RunLogsEachSuccessOnce | backend/src/routers/auth.routes.ts:10-69 | over any sequence of requests the audit table is the old one followed by one row per successful request, in order, and the number of new rows is the number of successes |
| AuthTrace.RunOnlyAppends | backend/src/utils/auditLog.ts:26-36 | the audit table is append-only over any sequence of requests: earlier rows are never changed |
| AuthTrace.RunKeepsUsers | backend/src/routers/auth.routes.ts:10-69 | over any sequence of requests no user row is changed or removed, and the table stays keyed by email |
| Middleware.IsPublicRoute | frontend/middleware.ts:7-22 | a path is public iff it is one of the six listed routes or starts with /auth/ |
| Middleware.IsAuthPage | frontend/middleware.ts:16-26 | a path is an auth page iff it is /login, /register or /forgot-password |
| Middleware.HasImageExtension | frontend/middleware.ts:36 | the end-anchored, case-sensitive pattern matches iff the path ends with one of .png, .jpg, .jpeg, .gif, .webp, .svg, .ico |
| Middleware.IsTechnicalPath | frontend/middleware.ts:32-36 | a path is technical iff it starts with /api, /_next or /favicon.ico, or ends with one of the seven image suffixes |
| Middleware.IsLoggedIn | frontend/middleware.ts:41-42 | a session is present iff the auth_token cookie is set and non-empty |
| Middleware.Decide | frontend/middleware.ts:28-58 | a redirect never happens on a technical path; without a session it goes to /login?from=<the path>, with a session to /dashboard |
| Middleware.LoginUrl | frontend/middleware.ts:46-47 | the anonymous redirect target is /login with the single query parameter from = the requested path, and /login is a public route |
| Middleware.DashboardUrl | frontend/middleware.ts:53 | the signed-in redirect target is /dashboard with no query; it is neither an auth page nor a public route |
| Middleware.NotTechnical | frontend/middleware.ts:32-37 | a path that differs from each technical prefix early and does not end in an image-extension letter is not technical |
| Middleware.DecideFollowsTable | frontend/middleware.ts:28-58 | the decision equals a table over path kind (technical, auth page, other public, private) and session presence |
| Middleware.TechnicalPathsPassThrough | frontend/middleware.ts:32-39 | /api, /_next, /favicon.ico prefixes and image-extension suffixes pass through whatever the cookies |
| Middleware.AnonymousPrivateGoesToLogin | frontend/middleware.ts:44-49 | without a session, a non-technical non-public path redirects to /login with from = the original path |
| Middleware.SignedInAuthPageGoesToDashboard | frontend/middleware.ts:51-55 | with a session, each of the three auth pages redirects to /dashboard |
| Middleware.OtherwisePassThrough | frontend/middleware.ts:57 | every other combination passes through |
| Middleware.EmptyCookieIsAnonymous | frontend/middleware.ts:41-42 | an empty auth_token value decides exactly as no cookie |
| Middleware.AuthPagesArePublic | frontend/middleware.ts:7-16 | every auth page is public, so an anonymous visitor to an auth page is never redirected |
| Middleware.AuthRoutesCoveredByPrefix | frontend/middleware.ts:12-20 | the two listed /auth/ routes are already public by the /auth/ prefix |
| Middleware.NoRedirectLoop | frontend/middleware.ts:45-55 | requesting a redirect's target with the same cookies passes through |
| Middleware.Examples | frontend/middleware.ts:28-58 | /dashboard without a cookie goes to /login?from=/dashboard; /login with a cookie goes to /dashboard; / without a cookie passes |
| Middleware.TechnicalPrefixAndSuffixAreLiteral | frontend/middleware.ts:32-36 | a private path ending in .png passes ungated; /apiary passes by the plain /api prefix; the suffix test is case-sensitive |

## Left out

- Hashing and token issuing are not modelled. The code has neither: it stores
  and compares plaintext and returns a constant token.
- The backend `authMiddleware` is not modelled. It always sets a fixed mock
  user id; its commented-out JWT check never runs.
- `server.ts` is not modelled: HTTP, CORS, Socket.IO wiring and `listen` are
  I/O bootstrap. The same holds for `ping.ts`, the frontend HTTP client
  `service/auth.ts` and the UI components.
- Request bodies are assumed to carry string fields. A missing or non-string
  field goes to the ORM, whose validation depends on a schema that is not
  part of this model. Such calls are covered only through the fault inputs.
- The ORM's generated values come from the environment. The new user's `id`
  is the `newId` parameter. The audit row's own id and any timestamps are not
  modelled. Only the enum members the code uses are modelled.
- Whether a storage call throws is an input. Concurrency between requests is
  not modelled.
- `console.error` in the catch blocks is output only and is left out.
- In the gate, redirect URLs are a path plus decoded query parameters. The
  request host and percent-encoding of `from` are left out. The cookie jar is
  a map from name to value: duplicate cookie names are not modelled.
- The gate's `config.matcher` covers every path, so the gate is modelled as
  running on every request.
