/** The rows of the identity tables (prisma/schema.prisma) and the values service calls exchange. */
module Tables {
  import opened Text

  /** SHA-256 as a free constructor: digests are equal exactly when their preimages are. */
  datatype Digest = Sha256(preimage: string)

  /** Argon2id: salted, and verified against the plain text it was made from. */
  datatype PasswordHash = Argon2(plain: string, salt: string)

  datatype UserStatus = PendingVerification | Active | Locked

  datatype Migration = Native | Legacy | Migrated

  datatype User = User(tenantId: string, id: string, email: Option<string>, username: Option<string>,
                       passwordHash: Option<PasswordHash>, status: UserStatus, migration: Migration)

  datatype Device = Device(tenantId: string, id: string, userId: string, fingerprint: string, platform: string,
                           dpopPublicKey: Option<string>, lastSeenAt: int)

  /** Composite primary key of the tenant-owned tables. */
  datatype Key = Key(tenantId: string, id: string)

  datatype Session = Session(userId: string, deviceId: Option<string>, refreshVerHash: Digest, origin: Origin,
                             lastSeenAt: int, revokedAt: Option<int>, loginClientId: Option<string>)

  datatype Access = Access(tenantId: string, sessionId: string, appClientId: string)

  datatype Audit = SsoProductAccess(tenantId: string, actorId: string, access: Access)

  datatype Event =
    | UserCreated(userId: string, email: Option<string>, username: Option<string>)
    | UserMigrated(userId: string, email: Option<string>, username: Option<string>)
    | SessionCreated(userId: string, sessionId: string, origin: Origin, dpopBound: bool)
    | SessionRevoked(sessionId: string)
    | AllSessionsRevoked(userId: string)
    | SessionHijackDetected(userId: string, sessionId: string, origin: Origin)

  datatype OutboxRow = OutboxRow(tenantId: string, event: Event)

  datatype Attempt = Attempt(tenantId: string, ipAddress: string, identifier: string, success: bool, createdAt: int)

  /** Where a request came from. */
  datatype Origin = Origin(ipAddress: string, userAgent: string)

  /** What verifying the request's `dpop` header gives. */
  datatype Dpop = NoProof | BadProof | Proof(jkt: string, jwk: string)

  /** Fetching the active key pair and signing with it. */
  datatype Signing = Signs(kid: string) | SigningFails

  /** Everything a call draws from outside the tables: clock, generated ids, random token, proof, signing key. */
  datatype Env = Env(now: int, sessionId: string, deviceId: string, tokenValue: string,
                     dpop: Dpop, signing: Signing, origin: Origin)

  datatype AccessToken = AccessToken(kid: string, sub: string, tenantId: string, email: Option<string>,
                                     username: Option<string>, jkt: Option<string>)

  datatype Error =
    | InvalidCredentials | AccountLocked | NoPassword | UserNotFound
    | DpopFailed | BadTokenFormat | UnknownSession | RevokedSession | TokenReuse | InvalidSession
    | NotOwnSession | DuplicateEmail | DuplicateUsername
    | ConstraintViolation           // a primary, unique or foreign key rejects the write
    | RecordNotFound                // an update names no row
    | SigningFailed(userId: string) // the signing key could not be loaded or used for this user

  datatype Reply =
    | Tokens(accessToken: AccessToken, refreshToken: string)
    | Success
    | Verified(userId: string)
    | Failed(error: Error)

  datatype Store = Store(
    users: seq<User>,
    devices: seq<Device>,
    sessions: map<Key, Session>,
    accesses: set<Access>,
    audits: seq<Audit>,
    outbox: seq<OutboxRow>,
    attempts: seq<Attempt>,
    clients: set<Key>)

  datatype Outcome = Outcome(store: Store, reply: Reply)

  /** One call of `SessionService` or `UserService`, made in the context of `tenantId`. */
  datatype Call =
    | Login(tenantId: string, identifier: string, password: string, fingerprint: Option<string>,
            clientId: Option<string>, env: Env)
    | CreateSession(tenantId: string, userId: string, email: Option<string>, username: Option<string>,
                    clientId: Option<string>, env: Env)
    | Refresh(tenantId: string, refreshToken: string, clientId: Option<string>, env: Env)
    | Consent(tenantId: string, userId: string, sessionId: string, appClientId: string)
    | Revoke(tenantId: string, refreshToken: string, now: int)
    | RevokeOne(tenantId: string, userId: string, sessionId: string, now: int)
    | RevokeAll(tenantId: string, userId: string, now: int)
    | Register(tenantId: string, newEmail: Option<string>, newPassword: Option<string>, newUsername: Option<string>,
               newId: string, salt: string)
    | Verify(tenantId: string, identifier: string, password: string, salt: string)

  /** `${sessionId}:${tokenValue}` */
  function TokenText(sessionId: string, tokenValue: string): string {
    sessionId + ":" + tokenValue
  }

  /** Splitting a presented refresh token; anything but two parts is malformed. */
  function ParseToken(token: string): Option<(string, string)> {
    var parts := Split(token, ':');
    if |parts| != 2 then None else Some((parts[0], parts[1]))
  }

  /** A token reads back as exactly the two colon-free texts it is made of, and as nothing if it is not made so. */
  lemma TokenParts(token: string, sessionId: string, tokenValue: string)
    ensures ParseToken(token) == Some((sessionId, tokenValue))
            <==> token == sessionId + ":" + tokenValue && ':' !in sessionId && ':' !in tokenValue
  {
    var parts := [sessionId, tokenValue];
    assert parts[1..] == [tokenValue];
    assert Join(parts, ':') == sessionId + ":" + tokenValue;
    SplitOfJoin(parts, ':');
    assert forall p :: p in parts <==> p == sessionId || p == tokenValue;
    var q := Split(token, ':');
    assert |q| == 2 ==> q == [q[0], q[1]];
    if q == parts {
      JoinOfSplit(token, ':');
    }
  }
}
