/**
 * The atomic model of SessionService and UserService: one call, made without interruption, as a function
 * from the tables it finds to the tables it leaves and the reply it gives. Services.dfy proves the
 * statement-by-statement methods equal to these functions; Interleaving.dfy proves that running the
 * individual database calls one after another gives the same result.
 */
module SessionSpec {
  import opened Text
  import opened Tables

  // ---------------------------------------------------------------- single database calls

  predicate Named(u: User, t: string, identifier: string) {
    u.tenantId == t && (u.email == Some(identifier) || u.username == Some(identifier))
  }

  /** `user.findFirst` by e-mail or username within a tenant, in table order. */
  function FirstUser(users: seq<User>, t: string, identifier: string): (r: Option<User>)
    ensures r.Some? ==> r.value in users && Named(r.value, t, identifier)
  {
    if users == [] then None
    else if Named(users[0], t, identifier) then Some(users[0])
    else FirstUser(users[1..], t, identifier)
  }

  /** `user.findUnique` by primary key. */
  function UserById(users: seq<User>, t: string, id: string): (r: Option<User>)
    ensures r.Some? ==> r.value in users && r.value.tenantId == t && r.value.id == id
  {
    if users == [] then None
    else if users[0].tenantId == t && users[0].id == id then Some(users[0])
    else UserById(users[1..], t, id)
  }

  /** `user.findUnique` by the unique pair of tenant and e-mail. */
  function UserByEmail(users: seq<User>, t: string, email: string): (r: Option<User>)
    ensures r.Some? ==> r.value.tenantId == t && r.value.email == Some(email)
  {
    if users == [] then None
    else if users[0].tenantId == t && users[0].email == Some(email) then Some(users[0])
    else UserByEmail(users[1..], t, email)
  }

  /** `user.findUnique` by the unique pair of tenant and username. */
  function UserByName(users: seq<User>, t: string, name: string): (r: Option<User>)
    ensures r.Some? ==> r.value.tenantId == t && r.value.username == Some(name)
  {
    if users == [] then None
    else if users[0].tenantId == t && users[0].username == Some(name) then Some(users[0])
    else UserByName(users[1..], t, name)
  }

  /** The four searches find a row exactly when the table has one. */
  lemma {:induction false} UsersSearched(users: seq<User>, t: string, x: string)
    ensures && (FirstUser(users, t, x).None? <==> forall u :: u in users ==> !Named(u, t, x))
            && (UserById(users, t, x).None? <==> forall u :: u in users ==> u.tenantId != t || u.id != x)
            && (UserByEmail(users, t, x).None? <==> forall u :: u in users ==> u.tenantId != t || u.email != Some(x))
            && (UserByName(users, t, x).None? <==> forall u :: u in users ==> u.tenantId != t || u.username != Some(x))
  {
    if users != [] {
      UsersSearched(users[1..], t, x);
      assert forall u :: u in users <==> u == users[0] || u in users[1..];
    }
  }

  /** `user.update`: the legacy account gets its own hash. */
  function MigrateUser(users: seq<User>, t: string, id: string, h: PasswordHash): (r: seq<User>)
    ensures |r| == |users|
    ensures forall i :: 0 <= i < |r| ==> r[i].tenantId == users[i].tenantId && r[i].id == users[i].id
  {
    if users == [] then []
    else (if users[0].tenantId == t && users[0].id == id
          then [users[0].(passwordHash := Some(h), migration := Migrated)] else [users[0]])
         + MigrateUser(users[1..], t, id, h)
  }

  /** Whether the unique and primary keys of the user table admit a new row. */
  predicate UserAdmitted(users: seq<User>, n: User) {
    && UserById(users, n.tenantId, n.id).None?
    && (n.email.Some? ==> UserByEmail(users, n.tenantId, n.email.value).None?)
    && (n.username.Some? ==> UserByName(users, n.tenantId, n.username.value).None?)
  }

  /** `device.findFirst`, in table order. */
  function FirstDevice(devices: seq<Device>, t: string, userId: string, fingerprint: string): (r: Option<Device>)
    ensures r.Some? ==> r.value in devices && r.value.tenantId == t && r.value.userId == userId
  {
    if devices == [] then None
    else if devices[0].tenantId == t && devices[0].userId == userId && devices[0].fingerprint == fingerprint
    then Some(devices[0])
    else FirstDevice(devices[1..], t, userId, fingerprint)
  }

  predicate DeviceKnown(devices: seq<Device>, t: string, id: string) {
    if devices == [] then false
    else (devices[0].tenantId == t && devices[0].id == id) || DeviceKnown(devices[1..], t, id)
  }

  lemma {:induction false} DevicesSearched(devices: seq<Device>, t: string, userId: string, f: string, id: string)
    ensures var r := FirstDevice(devices, t, userId, f);
            && (r.Some? ==> r.value.fingerprint == f)
            && (r.None? <==> forall d :: d in devices ==> d.tenantId != t || d.userId != userId || d.fingerprint != f)
            && (!DeviceKnown(devices, t, id) <==> forall d :: d in devices ==> d.tenantId != t || d.id != id)
  {
    if devices != [] {
      DevicesSearched(devices[1..], t, userId, f, id);
      assert forall d :: d in devices <==> d == devices[0] || d in devices[1..];
    }
  }

  /** `device.update`: a changed proof key. */
  function RekeyDevice(devices: seq<Device>, t: string, id: string, jwk: string, now: int): seq<Device> {
    if devices == [] then []
    else (if devices[0].tenantId == t && devices[0].id == id
          then [devices[0].(dpopPublicKey := Some(jwk), lastSeenAt := now)] else [devices[0]])
         + RekeyDevice(devices[1..], t, id, jwk, now)
  }

  function LogAttempt(s: Store, t: string, identifier: string, success: bool, e: Env): Store {
    s.(attempts := s.attempts + [Attempt(t, e.origin.ipAddress, identifier, success, e.now)])
  }

  function AppendEvent(s: Store, t: string, ev: Event): Store {
    s.(outbox := s.outbox + [OutboxRow(t, ev)])
  }

  /** `session.update` of the revocation time of one row. */
  function CloseSession(s: Store, k: Key, now: int): Store
    requires k in s.sessions
  {
    s.(sessions := s.sessions[k := s.sessions[k].(revokedAt := Some(now))])
  }

  /** `session.updateMany`: every unrevoked session of the user. */
  function CloseUserRows(sessions: map<Key, Session>, t: string, userId: string, now: int): (r: map<Key, Session>)
    ensures r.Keys == sessions.Keys
  {
    map k | k in sessions ::
      if k.tenantId == t && sessions[k].userId == userId && sessions[k].revokedAt.None?
      then sessions[k].(revokedAt := Some(now)) else sessions[k]
  }

  /** `revokeAllUserSessions`: close the rows, then record it. */
  function CloseUser(s: Store, t: string, userId: string, now: int): Store {
    AppendEvent(s.(sessions := CloseUserRows(s.sessions, t, userId, now)), t, AllSessionsRevoked(userId))
  }

  /** `session.update` with the next token's hash; the update leaves every other column as it finds it. */
  function RotateSession(s: Store, k: Key, e: Env): Store
    requires k in s.sessions
  {
    s.(sessions := s.sessions[k := s.sessions[k].(refreshVerHash := Sha256(e.tokenValue), origin := e.origin,
                                                  lastSeenAt := e.now)])
  }

  /** `session.create` succeeds: fresh primary key, and every foreign key resolves. */
  predicate SessionAdmitted(s: Store, t: string, userId: string, clientId: Option<string>, e: Env) {
    && Key(t, e.sessionId) !in s.sessions
    && UserById(s.users, t, userId).Some?
    && (clientId.Some? ==> Key(t, clientId.value) in s.clients)
  }

  /** The foreign key from product accesses to sessions. */
  predicate AccessesNameSessions(s: Store) {
    forall a :: a in s.accesses ==> Key(a.tenantId, a.sessionId) in s.sessions
  }

  function InsertSession(s: Store, t: string, userId: string, deviceId: Option<string>, clientId: Option<string>,
                         e: Env): Store
  {
    s.(sessions := s.sessions[Key(t, e.sessionId) :=
      Session(userId, deviceId, Sha256(e.tokenValue), e.origin, e.now, None, clientId)])
  }

  /** `sessionAppAccess.create` followed by its audit row. */
  function GrantAccess(s: Store, a: Access, actorId: string): Store {
    s.(accesses := s.accesses + {a}, audits := s.audits + [SsoProductAccess(a.tenantId, actorId, a)])
  }

  // ---------------------------------------------------------------- service calls

  predicate LegacyAccepts(password: string) {
    password == "legacyPass123" || EndsWith(password, "_legacy")
  }

  /** What `login` finds wrong with the credentials of the account it found. */
  function CredentialError(u: User, password: string): Option<Error> {
    if u.status.Locked? then Some(AccountLocked) else VerifyError(u, password)
  }

  function LoginStep(s: Store, t: string, identifier: string, password: string, fingerprint: Option<string>,
                     clientId: Option<string>, e: Env): Outcome
  {
    match FirstUser(s.users, t, identifier)
    case None => Outcome(LogAttempt(s, t, identifier, false, e), Failed(InvalidCredentials))
    case Some(u) =>
      match CredentialError(u, password)
      case Some(err) => Outcome(LogAttempt(s, t, identifier, false, e), Failed(err))
      case None => IssueStep(LogAttempt(s, t, identifier, true, e), t, u.id, u.email, u.username, fingerprint,
                             clientId, e)
  }

  function Platform(userAgent: string): string {
    if userAgent == "" then "unknown" else if |userAgent| <= 50 then userAgent else userAgent[..50]
  }

  function NewDevice(t: string, userId: string, fingerprint: string, e: Env): Device {
    Device(t, e.deviceId, userId, fingerprint, Platform(e.origin.userAgent),
           if e.dpop.Proof? then Some(e.dpop.jwk) else None, e.now)
  }

  /** Device association; None when the database refuses a new device row. */
  function DeviceStep(s: Store, t: string, userId: string, fingerprint: Option<string>, e: Env)
    : Option<(Store, Option<string>)>
  {
    match Truthy(fingerprint)
    case None => Some((s, None))
    case Some(f) =>
      match FirstDevice(s.devices, t, userId, f)
      case None =>
        if DeviceKnown(s.devices, t, e.deviceId) || UserById(s.users, t, userId).None? then None
        else Some((s.(devices := s.devices + [NewDevice(t, userId, f, e)]), Some(e.deviceId)))
      case Some(d) =>
        if e.dpop.Proof? then Some((s.(devices := RekeyDevice(s.devices, t, d.id, e.dpop.jwk, e.now)), Some(d.id)))
        else Some((s, Some(d.id)))
  }

  function Thumbprint(d: Dpop): Option<string> {
    if d.Proof? then Some(d.jkt) else None
  }

  /** `issueTokensAndSession`. */
  function IssueStep(s: Store, t: string, userId: string, email: Option<string>, username: Option<string>,
                     fingerprint: Option<string>, clientId: Option<string>, e: Env): Outcome
  {
    if e.dpop.BadProof? then Outcome(s, Failed(DpopFailed))
    else
      match DeviceStep(s, t, userId, fingerprint, e)
      case None => Outcome(s, Failed(ConstraintViolation))
      case Some((s1, deviceId)) =>
        var client := Truthy(clientId);
        if !SessionAdmitted(s1, t, userId, client, e) then Outcome(s1, Failed(ConstraintViolation))
        else OpenStep(s1, t, userId, deviceId, email, username, client, e)
  }

  /** `issueTokensAndSession` from the insertion of an admitted session row on. */
  function OpenStep(s: Store, t: string, userId: string, deviceId: Option<string>, email: Option<string>,
                    username: Option<string>, client: Option<string>, e: Env): Outcome
  {
    var s1 := InsertSession(s, t, userId, deviceId, client, e);
    var s2 := if client.Some? then GrantAccess(s1, Access(t, e.sessionId, client.value), userId) else s1;
    match e.signing
    case SigningFails => Outcome(s2, Failed(SigningFailed(userId)))
    case Signs(kid) =>
      Outcome(AppendEvent(s2, t, SessionCreated(userId, e.sessionId, e.origin, e.dpop.Proof?)),
              Tokens(AccessToken(kid, userId, t, email, username, Thumbprint(e.dpop)),
                     TokenText(e.sessionId, e.tokenValue)))
  }

  /** `refresh`: rotation with reuse detection. */
  function RefreshStep(s: Store, t: string, token: string, clientId: Option<string>, e: Env): Outcome {
    match ParseToken(token)
    case None => Outcome(s, Failed(BadTokenFormat))
    case Some((sid, val)) =>
      var k := Key(t, sid);
      if k !in s.sessions then Outcome(s, Failed(UnknownSession))
      else
        var row := s.sessions[k];
        if row.revokedAt.Some? then Outcome(CloseUser(s, t, row.userId, e.now), Failed(RevokedSession))
        else if row.refreshVerHash != Sha256(val) then
          var closed := CloseUser(CloseSession(s, k, e.now), t, row.userId, e.now);
          Outcome(AppendEvent(closed, t, SessionHijackDetected(row.userId, sid, e.origin)), Failed(TokenReuse))
        else if e.dpop.BadProof? then Outcome(s, Failed(DpopFailed))
        else RotateStep(s, t, sid, clientId, e)
  }

  /** The part of `refresh` after every check has passed. */
  function RotateStep(s: Store, t: string, sid: string, clientId: Option<string>, e: Env): Outcome
    requires Key(t, sid) in s.sessions
  {
    var userId := s.sessions[Key(t, sid)].userId;
    var s1 := RotateSession(s, Key(t, sid), e);
    match AccessStep(s1, t, sid, userId, Truthy(clientId))
    case None => Outcome(s1, Failed(ConstraintViolation))
    case Some(s2) =>
      match e.signing
      case SigningFails => Outcome(s2, Failed(SigningFailed(userId)))
      case Signs(kid) => Outcome(s2, Tokens(TokenFor(s.users, t, userId, kid, e), TokenText(sid, e.tokenValue)))
  }

  function TokenFor(users: seq<User>, t: string, userId: string, kid: string, e: Env): AccessToken {
    match UserById(users, t, userId)
    case Some(u) => AccessToken(kid, userId, t, u.email, u.username, Thumbprint(e.dpop))
    case None => AccessToken(kid, userId, t, None, None, Thumbprint(e.dpop))
  }

  /** Record the first access of a product by a session; None when the product does not exist. */
  function AccessStep(s: Store, t: string, sid: string, actorId: string, client: Option<string>): Option<Store> {
    match client
    case None => Some(s)
    case Some(c) =>
      if Access(t, sid, c) in s.accesses then Some(s)
      else if Key(t, c) !in s.clients then None
      else Some(GrantAccess(s, Access(t, sid, c), actorId))
  }

  /** `recordSsoConsent`. */
  function ConsentStep(s: Store, t: string, userId: string, sid: string, c: string): Outcome {
    var k := Key(t, sid);
    if k !in s.sessions || s.sessions[k].userId != userId || s.sessions[k].revokedAt.Some?
    then Outcome(s, Failed(InvalidSession))
    else
      match AccessStep(s, t, sid, userId, Some(c))
      case None => Outcome(s, Failed(ConstraintViolation))
      case Some(s1) => Outcome(s1, Success)
  }

  /** `revoke` (logout): the session id is read from the token, its secret is not checked. */
  function RevokeStep(s: Store, t: string, token: string, now: int): Outcome {
    match ParseToken(token)
    case None => Outcome(s, Failed(BadTokenFormat))
    case Some((sid, _)) =>
      if Key(t, sid) !in s.sessions then Outcome(s, Failed(RecordNotFound))
      else Outcome(AppendEvent(CloseSession(s, Key(t, sid), now), t, SessionRevoked(sid)), Success)
  }

  /** `revokeSpecificSession`. */
  function RevokeOneStep(s: Store, t: string, userId: string, sid: string, now: int): Outcome {
    var k := Key(t, sid);
    if k !in s.sessions || s.sessions[k].userId != userId then Outcome(s, Failed(NotOwnSession))
    else Outcome(AppendEvent(CloseSession(s, k, now), t, SessionRevoked(sid)), Success)
  }

  /** `registerUser`: the user row and its event are written in one transaction. */
  function RegisterStep(s: Store, t: string, email: Option<string>, password: Option<string>,
                        username: Option<string>, id: string, salt: string): Outcome
  {
    var u := NewUser(t, email, password, username, id, salt);
    match RegisterError(s.users, u)
    case Some(err) => Outcome(s, Failed(err))
    case None => Outcome(InsertUser(s, u), Verified(id))
  }

  /** What stands in the way of a new account: a known e-mail or name, or a key the database refuses. */
  function RegisterError(users: seq<User>, u: User): Option<Error> {
    if Truthy(u.email).Some? && UserByEmail(users, u.tenantId, u.email.value).Some? then Some(DuplicateEmail)
    else if Truthy(u.username).Some? && UserByName(users, u.tenantId, u.username.value).Some?
    then Some(DuplicateUsername)
    else if !UserAdmitted(users, u) then Some(ConstraintViolation)
    else None
  }

  function NewUser(t: string, email: Option<string>, password: Option<string>, username: Option<string>,
                   id: string, salt: string): User
  {
    var p := Truthy(password);
    User(t, id, email, username, if p.Some? then Some(Argon2(p.value, salt)) else None, Active, Native)
  }

  /** The transaction body: user and `UserCreated` event together. */
  function InsertUser(s: Store, u: User): Store {
    AppendEvent(s.(users := s.users + [u]), u.tenantId, UserCreated(u.id, u.email, u.username))
  }

  /** `verifyCredentials`, with the just-in-time migration of legacy accounts. */
  function VerifyStep(s: Store, t: string, identifier: string, password: string, salt: string): Outcome {
    match FirstUser(s.users, t, identifier)
    case None => Outcome(s, Failed(UserNotFound))
    case Some(u) =>
      match VerifyError(u, password)
      case Some(err) => Outcome(s, Failed(err))
      case None =>
        if u.migration.Legacy? then Outcome(MigrateStep(s, u, Argon2(password, salt)), Verified(u.id))
        else Outcome(s, Verified(u.id))
  }

  function VerifyError(u: User, password: string): Option<Error> {
    if u.migration.Legacy? then (if LegacyAccepts(password) then None else Some(InvalidCredentials))
    else if u.passwordHash.None? then Some(NoPassword)
    else if u.passwordHash.value.plain != password then Some(InvalidCredentials)
    else None
  }

  function MigrateStep(s: Store, u: User, h: PasswordHash): Store {
    AppendEvent(s.(users := MigrateUser(s.users, u.tenantId, u.id, h)), u.tenantId,
                UserMigrated(u.id, u.email, u.username))
  }

  function Step(s: Store, c: Call): Outcome {
    match c
    case Login(t, i, p, f, cl, e) => LoginStep(s, t, i, p, f, cl, e)
    case CreateSession(t, u, em, n, cl, e) => IssueStep(s, t, u, em, n, None, cl, e)
    case Refresh(t, token, cl, e) => RefreshStep(s, t, token, cl, e)
    case Consent(t, u, sid, cl) => ConsentStep(s, t, u, sid, cl)
    case Revoke(t, token, now) => RevokeStep(s, t, token, now)
    case RevokeOne(t, u, sid, now) => RevokeOneStep(s, t, u, sid, now)
    case RevokeAll(t, u, now) => Outcome(CloseUser(s, t, u, now), Success)
    case Register(t, em, p, n, id, salt) => RegisterStep(s, t, em, p, n, id, salt)
    case Verify(t, i, p, salt) => VerifyStep(s, t, i, p, salt)
  }

  /** `getActiveSessions`: the ids a user's unrevoked sessions have in the tenant. */
  function ActiveSessions(s: Store, t: string, userId: string): (r: set<Key>)
    ensures forall k :: k in r <==> k in s.sessions && k.tenantId == t && s.sessions[k].userId == userId
                                    && s.sessions[k].revokedAt.None?
  {
    set k | k in s.sessions && k.tenantId == t && s.sessions[k].userId == userId && s.sessions[k].revokedAt.None?
  }

  // ---------------------------------------------------------------- runs

  /** The tables after a run of calls, each made without interruption. */
  function Run(s: Store, cs: seq<Call>): Store
    decreases cs
  {
    if cs == [] then s else Run(Step(s, cs[0]).store, cs[1..])
  }

  /** The replies of that run, in order. */
  function Replies(s: Store, cs: seq<Call>): (r: seq<Reply>)
    ensures |r| == |cs|
    decreases cs
  {
    if cs == [] then [] else [Step(s, cs[0]).reply] + Replies(Step(s, cs[0]).store, cs[1..])
  }

  /** The session and hash checks of `refresh`: what a token must be to get past them. */
  predicate Passes(s: Store, t: string, token: string) {
    var p := ParseToken(token);
    && p.Some?
    && Key(t, p.value.0) in s.sessions
    && s.sessions[Key(t, p.value.0)].revokedAt.None?
    && s.sessions[Key(t, p.value.0)].refreshVerHash == Sha256(p.value.1)
  }
}
