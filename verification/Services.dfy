/**
 * SessionService and UserService statement by statement over a mutable database. Every method is proved to
 * leave exactly the tables, and give exactly the reply, of the atomic model in SessionSpec.dfy.
 */
module Services {
  import opened Text
  import opened Tables
  import opened SessionSpec

  /** The tables behind the Prisma client. */
  class Database {
    var users: seq<User>
    var devices: seq<Device>
    var sessions: map<Key, Session>
    var accesses: set<Access>
    var audits: seq<Audit>
    var outbox: seq<OutboxRow>
    var attempts: seq<Attempt>
    const clients: set<Key>

    constructor (clients: set<Key>)
      ensures View() == Store([], [], map[], {}, [], [], [], clients)
    {
      users, devices, sessions, accesses, audits, outbox, attempts := [], [], map[], {}, [], [], [];
      this.clients := clients;
    }

    ghost function View(): Store
      reads this
    {
      Store(users, devices, sessions, accesses, audits, outbox, attempts, clients)
    }

    method CreateEvent(t: string, ev: Event)
      modifies this`outbox
      ensures View() == AppendEvent(old(View()), t, ev)
    {
      outbox := outbox + [OutboxRow(t, ev)];
    }
  }

  class SessionService {
    const db: Database

    constructor (db: Database)
      ensures this.db == db
    {
      this.db := db;
    }

    method RecordAttempt(t: string, identifier: string, success: bool, e: Env)
      modifies db`attempts
      ensures db.View() == LogAttempt(old(db.View()), t, identifier, success, e)
    {
      db.attempts := db.attempts + [Attempt(t, e.origin.ipAddress, identifier, success, e.now)];
    }

    method Login(t: string, identifier: string, password: string, fingerprint: Option<string>,
                 clientId: Option<string>, e: Env)
      returns (r: Reply)
      modifies db
      ensures Outcome(db.View(), r) == LoginStep(old(db.View()), t, identifier, password, fingerprint, clientId, e)
    {
      var found := FirstUser(db.users, t, identifier);
      if found.None? {
        RecordAttempt(t, identifier, false, e);
        return Failed(InvalidCredentials);
      }
      var u := found.value;
      if u.status == Locked {
        RecordAttempt(t, identifier, false, e);
        return Failed(AccountLocked);
      }
      if u.migration == Legacy {
        if password != "legacyPass123" && !EndsWith(password, "_legacy") {
          RecordAttempt(t, identifier, false, e);
          return Failed(InvalidCredentials);
        }
      } else {
        if u.passwordHash.None? {
          RecordAttempt(t, identifier, false, e);
          return Failed(NoPassword);
        }
        if u.passwordHash.value.plain != password {
          RecordAttempt(t, identifier, false, e);
          return Failed(InvalidCredentials);
        }
      }
      RecordAttempt(t, identifier, true, e);
      r := IssueTokensAndSession(t, u.id, u.email, u.username, fingerprint, clientId, e);
    }

    /** Find, create or re-key the device with this fingerprint; `ok` is false when the new row is refused. */
    method AssociateDevice(t: string, userId: string, fingerprint: Option<string>, e: Env)
      returns (ok: bool, deviceId: Option<string>)
      modifies db`devices
      ensures DeviceStep(old(db.View()), t, userId, fingerprint, e)
           == if ok then Some((db.View(), deviceId)) else None
      ensures !ok ==> db.View() == old(db.View())
    {
      ok, deviceId := true, None;
      if fingerprint.Some? && fingerprint.value != "" {
        var device := FirstDevice(db.devices, t, userId, fingerprint.value);
        if device.None? {
          if DeviceKnown(db.devices, t, e.deviceId) || UserById(db.users, t, userId).None? {
            return false, None;
          }
          db.devices := db.devices + [NewDevice(t, userId, fingerprint.value, e)];
          deviceId := Some(e.deviceId);
        } else {
          if e.dpop.Proof? {
            db.devices := RekeyDevice(db.devices, t, device.value.id, e.dpop.jwk, e.now);
          }
          deviceId := Some(device.value.id);
        }
      }
    }

    method IssueTokensAndSession(t: string, userId: string, email: Option<string>, username: Option<string>,
                                 fingerprint: Option<string>, clientId: Option<string>, e: Env)
      returns (r: Reply)
      modifies db
      ensures Outcome(db.View(), r)
           == IssueStep(old(db.View()), t, userId, email, username, fingerprint, clientId, e)
    {
      var jkt: Option<string> := None;
      if !e.dpop.NoProof? {
        if e.dpop.BadProof? {
          return Failed(DpopFailed);
        }
        jkt := Some(e.dpop.jkt);
      }
      var ok, deviceId := AssociateDevice(t, userId, fingerprint, e);
      if !ok {
        return Failed(ConstraintViolation);
      }
      var client := Truthy(clientId);
      if Key(t, e.sessionId) in db.sessions || UserById(db.users, t, userId).None?
         || (client.Some? && Key(t, client.value) !in db.clients) {
        return Failed(ConstraintViolation);
      }
      r := OpenSession(t, userId, deviceId, email, username, client, jkt, e);
    }

    /** Insert the admitted session, record its first product access, sign, and report. */
    method OpenSession(t: string, userId: string, deviceId: Option<string>, email: Option<string>,
                       username: Option<string>, client: Option<string>, jkt: Option<string>, e: Env)
      returns (r: Reply)
      requires jkt == Thumbprint(e.dpop) && !e.dpop.BadProof?
      modifies db
      ensures Outcome(db.View(), r) == OpenStep(old(db.View()), t, userId, deviceId, email, username, client, e)
    {
      db.sessions := db.sessions[Key(t, e.sessionId) :=
        Session(userId, deviceId, Sha256(e.tokenValue), e.origin, e.now, None, client)];
      if client.Some? {
        var access := Access(t, e.sessionId, client.value);
        db.accesses := db.accesses + {access};
        db.audits := db.audits + [SsoProductAccess(t, userId, access)];
      }
      var refreshToken := TokenText(e.sessionId, e.tokenValue);
      if e.signing.SigningFails? {
        return Failed(SigningFailed(userId));
      }
      var accessToken := AccessToken(e.signing.kid, userId, t, email, username, jkt);
      db.CreateEvent(t, SessionCreated(userId, e.sessionId, e.origin, jkt.Some?));
      r := Tokens(accessToken, refreshToken);
    }

    method Refresh(t: string, refreshToken: string, clientId: Option<string>, e: Env)
      returns (r: Reply)
      modifies db
      ensures Outcome(db.View(), r) == RefreshStep(old(db.View()), t, refreshToken, clientId, e)
    {
      var parts := Split(refreshToken, ':');
      if |parts| != 2 {
        return Failed(BadTokenFormat);
      }
      var sessionId, tokenValue := parts[0], parts[1];
      var k := Key(t, sessionId);
      if k !in db.sessions {
        return Failed(UnknownSession);
      }
      var session := db.sessions[k];
      if session.revokedAt.Some? {
        RevokeAllUserSessions(t, session.userId, e.now);
        return Failed(RevokedSession);
      }
      if session.refreshVerHash != Sha256(tokenValue) {
        db.sessions := db.sessions[k := session.(revokedAt := Some(e.now))];
        RevokeAllUserSessions(t, session.userId, e.now);
        db.CreateEvent(t, SessionHijackDetected(session.userId, sessionId, e.origin));
        return Failed(TokenReuse);
      }
      var jkt: Option<string> := None;
      if !e.dpop.NoProof? {
        if e.dpop.BadProof? {
          return Failed(DpopFailed);
        }
        jkt := Some(e.dpop.jkt);
      }
      db.sessions := db.sessions[k := db.sessions[k].(refreshVerHash := Sha256(e.tokenValue), origin := e.origin,
                                                      lastSeenAt := e.now)];
      if clientId.Some? && clientId.value != "" {
        var access := Access(t, sessionId, clientId.value);
        if access !in db.accesses {
          if Key(t, clientId.value) !in db.clients {
            return Failed(ConstraintViolation);
          }
          db.accesses := db.accesses + {access};
          db.audits := db.audits + [SsoProductAccess(t, session.userId, access)];
        }
      }
      var newRefreshToken := TokenText(sessionId, e.tokenValue);
      if e.signing.SigningFails? {
        return Failed(SigningFailed(session.userId));
      }
      var user := UserById(db.users, t, session.userId);
      var email, username := None, None;
      if user.Some? {
        email, username := user.value.email, user.value.username;
      }
      r := Tokens(AccessToken(e.signing.kid, session.userId, t, email, username, jkt), newRefreshToken);
    }

    method RecordSsoConsent(t: string, userId: string, sessionId: string, clientId: string)
      returns (r: Reply)
      modifies db
      ensures Outcome(db.View(), r) == ConsentStep(old(db.View()), t, userId, sessionId, clientId)
    {
      var k := Key(t, sessionId);
      if k !in db.sessions || db.sessions[k].userId != userId || db.sessions[k].revokedAt.Some? {
        return Failed(InvalidSession);
      }
      var access := Access(t, sessionId, clientId);
      if access !in db.accesses {
        if Key(t, clientId) !in db.clients {
          return Failed(ConstraintViolation);
        }
        db.accesses := db.accesses + {access};
        db.audits := db.audits + [SsoProductAccess(t, userId, access)];
      }
      r := Success;
    }

    method Revoke(t: string, refreshToken: string, now: int)
      returns (r: Reply)
      modifies db
      ensures Outcome(db.View(), r) == RevokeStep(old(db.View()), t, refreshToken, now)
    {
      var parts := Split(refreshToken, ':');
      if |parts| != 2 {
        return Failed(BadTokenFormat);
      }
      var k := Key(t, parts[0]);
      if k !in db.sessions {
        return Failed(RecordNotFound);
      }
      db.sessions := db.sessions[k := db.sessions[k].(revokedAt := Some(now))];
      db.CreateEvent(t, SessionRevoked(parts[0]));
      r := Success;
    }

    method RevokeSpecificSession(t: string, userId: string, sessionId: string, now: int)
      returns (r: Reply)
      modifies db
      ensures Outcome(db.View(), r) == RevokeOneStep(old(db.View()), t, userId, sessionId, now)
    {
      var k := Key(t, sessionId);
      if k !in db.sessions || db.sessions[k].userId != userId {
        return Failed(NotOwnSession);
      }
      db.sessions := db.sessions[k := db.sessions[k].(revokedAt := Some(now))];
      db.CreateEvent(t, SessionRevoked(sessionId));
      r := Success;
    }

    method RevokeAllUserSessions(t: string, userId: string, now: int)
      modifies db
      ensures db.View() == CloseUser(old(db.View()), t, userId, now)
    {
      db.sessions := CloseUserRows(db.sessions, t, userId, now);
      db.CreateEvent(t, AllSessionsRevoked(userId));
    }

    method GetActiveSessions(t: string, userId: string)
      returns (ids: set<Key>)
      ensures ids == ActiveSessions(db.View(), t, userId)
    {
      ids := set k | k in db.sessions && k.tenantId == t && db.sessions[k].userId == userId
                     && db.sessions[k].revokedAt == None;
    }
  }

  class UserService {
    const db: Database

    constructor (db: Database)
      ensures this.db == db
    {
      this.db := db;
    }

    method RegisterUser(t: string, email: Option<string>, password: Option<string>, username: Option<string>,
                        id: string, salt: string)
      returns (r: Reply)
      modifies db
      ensures Outcome(db.View(), r) == RegisterStep(old(db.View()), t, email, password, username, id, salt)
    {
      if email.Some? && email.value != "" {
        if UserByEmail(db.users, t, email.value).Some? {
          return Failed(DuplicateEmail);
        }
      }
      if username.Some? && username.value != "" {
        if UserByName(db.users, t, username.value).Some? {
          return Failed(DuplicateUsername);
        }
      }
      var hash := None;
      if password.Some? && password.value != "" {
        hash := Some(Argon2(password.value, salt));
      }
      var user := User(t, id, email, username, hash, Active, Native);
      if !UserAdmitted(db.users, user) {
        return Failed(ConstraintViolation);
      }
      db.users := db.users + [user];
      db.CreateEvent(t, UserCreated(id, email, username));
      r := Verified(id);
    }

    method VerifyCredentials(t: string, identifier: string, password: string, salt: string)
      returns (r: Reply)
      modifies db
      ensures Outcome(db.View(), r) == VerifyStep(old(db.View()), t, identifier, password, salt)
    {
      var found := FirstUser(db.users, t, identifier);
      if found.None? {
        return Failed(UserNotFound);
      }
      var u := found.value;
      if u.migration == Legacy {
        if !(password == "legacyPass123" || EndsWith(password, "_legacy")) {
          return Failed(InvalidCredentials);
        }
        db.users := MigrateUser(db.users, t, u.id, Argon2(password, salt));
        db.CreateEvent(t, UserMigrated(u.id, u.email, u.username));
        return Verified(u.id);
      }
      if u.passwordHash.None? {
        return Failed(NoPassword);
      }
      if u.passwordHash.value.plain != password {
        return Failed(InvalidCredentials);
      }
      r := Verified(u.id);
    }
  }

  /** The deployed backend: both services on one database. */
  class Backend {
    const db: Database
    const sessions: SessionService
    const users: UserService

    constructor (db: Database)
      ensures this.db == db && sessions.db == db && users.db == db
    {
      this.db := db;
      this.sessions := new SessionService(db);
      this.users := new UserService(db);
    }

    ghost predicate Valid() {
      sessions.db == db && users.db == db
    }

    /** Route one call to its service; the whole database changes by exactly one atomic step. */
    method Serve(c: Call)
      returns (r: Reply)
      requires Valid()
      modifies db
      ensures Outcome(db.View(), r) == Step(old(db.View()), c)
    {
      match c {
        case Login(t, i, p, f, cl, e) => r := sessions.Login(t, i, p, f, cl, e);
        case CreateSession(t, u, em, n, cl, e) => r := sessions.IssueTokensAndSession(t, u, em, n, None, cl, e);
        case Refresh(t, token, cl, e) => r := sessions.Refresh(t, token, cl, e);
        case Consent(t, u, sid, cl) => r := sessions.RecordSsoConsent(t, u, sid, cl);
        case Revoke(t, token, now) => r := sessions.Revoke(t, token, now);
        case RevokeOne(t, u, sid, now) => r := sessions.RevokeSpecificSession(t, u, sid, now);
        case RevokeAll(t, u, now) =>
          sessions.RevokeAllUserSessions(t, u, now);
          r := Success;
        case Register(t, em, p, n, id, salt) => r := users.RegisterUser(t, em, p, n, id, salt);
        case Verify(t, i, p, salt) => r := users.VerifyCredentials(t, i, p, salt);
      }
    }
  }
}
