/** A call whose database calls are not interleaved with others does exactly what the atomic model says. */
module Serial {
  import opened Text
  import opened Tables
  import opened SessionSpec
  import opened Interleaving

  /** Completing a call is making its next database call and completing the rest. */
  lemma Ahead(s: Store, c: Call, pc: Pc) returns (n: Next)
    requires Fits(c, pc)
    ensures n == Advance(s, c, pc)
    ensures Complete(s, c, pc) == Complete(n.store, c, n.pc)
    ensures pc.Finished? ==> Complete(s, c, pc) == Outcome(s, pc.reply)
    ensures n.pc.Finished? ==> Complete(s, c, pc) == Outcome(n.store, n.pc.reply)
  {
    n := Advance(s, c, pc);
  }

  /** `issueTokensAndSession` from the signing of the access token on. */
  function SignedStep(s: Store, c: Call, who: Subject): Outcome
    requires c.Login? || c.CreateSession?
  {
    match c.env.signing
    case SigningFails => Outcome(s, Failed(SigningFailed(who.userId)))
    case Signs(kid) =>
      Outcome(AppendEvent(s, c.tenantId,
                          SessionCreated(who.userId, c.env.sessionId, c.env.origin, c.env.dpop.Proof?)),
              Tokens(AccessToken(kid, who.userId, c.tenantId, who.email, who.username, Thumbprint(c.env.dpop)),
                     TokenText(c.env.sessionId, c.env.tokenValue)))
  }

  lemma SignIsSerial(s: Store, c: Call, who: Subject)
    requires c.Login? || c.CreateSession?
    ensures Complete(s, c, AtLogin(SignFirst(who))) == SignedStep(s, c, who)
  {
    var n := Ahead(s, c, AtLogin(SignFirst(who)));
    n := Ahead(n.store, c, n.pc);
  }

  lemma AuditIsSerial(s: Store, c: Call, who: Subject, cl: string)
    requires c.Login? || c.CreateSession?
    ensures Complete(s, c, AtLogin(AuditFirstAccess(who, cl)))
         == SignedStep(s.(audits := s.audits + [SsoProductAccess(c.tenantId, who.userId,
                                                                 Access(c.tenantId, c.env.sessionId, cl))]), c, who)
  {
    var n := Ahead(s, c, AtLogin(AuditFirstAccess(who, cl)));
    SignIsSerial(n.store, c, who);
  }

  /** A new session has no access yet, so its first one is recorded and audited. */
  lemma FirstAccessIsSerial(s: Store, c: Call, who: Subject, cl: string)
    requires (c.Login? || c.CreateSession?) && Access(c.tenantId, c.env.sessionId, cl) !in s.accesses
    ensures Complete(s, c, AtLogin(AddFirstAccess(who, cl)))
         == SignedStep(GrantAccess(s, Access(c.tenantId, c.env.sessionId, cl), who.userId), c, who)
  {
    var n := Ahead(s, c, AtLogin(AddFirstAccess(who, cl)));
    AuditIsSerial(n.store, c, who, cl);
  }

  /** A refused session row ends the call. */
  lemma RefusedIsSerial(s: Store, c: Call, who: Subject, d: Option<string>)
    requires c.Login? || c.CreateSession?
    requires !SessionAdmitted(s, c.tenantId, who.userId, Truthy(c.clientId), c.env)
    ensures Complete(s, c, AtLogin(AddSession(who, d))) == Outcome(s, Failed(ConstraintViolation))
  {
    var n := Ahead(s, c, AtLogin(AddSession(who, d)));
  }

  lemma AdmittedIsSerial(s: Store, c: Call, who: Subject, d: Option<string>)
    requires c.Login? || c.CreateSession?
    requires AccessesNameSessions(s)
    requires SessionAdmitted(s, c.tenantId, who.userId, Truthy(c.clientId), c.env)
    ensures Complete(s, c, AtLogin(AddSession(who, d)))
         == OpenStep(s, c.tenantId, who.userId, d, who.email, who.username, Truthy(c.clientId), c.env)
  {
    var n := Ahead(s, c, AtLogin(AddSession(who, d)));
    assert n.store == InsertSession(s, c.tenantId, who.userId, d, Truthy(c.clientId), c.env);
    if Truthy(c.clientId).Some? {
      FirstAccessIsSerial(n.store, c, who, Truthy(c.clientId).value);
    } else {
      SignIsSerial(n.store, c, who);
    }
  }

  lemma OpenIsSerial(s: Store, c: Call, who: Subject, d: Option<string>)
    requires c.Login? || c.CreateSession?
    requires AccessesNameSessions(s)
    ensures Complete(s, c, AtLogin(AddSession(who, d)))
         == if SessionAdmitted(s, c.tenantId, who.userId, Truthy(c.clientId), c.env)
            then OpenStep(s, c.tenantId, who.userId, d, who.email, who.username, Truthy(c.clientId), c.env)
            else Outcome(s, Failed(ConstraintViolation))
  {
    if SessionAdmitted(s, c.tenantId, who.userId, Truthy(c.clientId), c.env) {
      AdmittedIsSerial(s, c, who, d);
    } else {
      RefusedIsSerial(s, c, who, d);
    }
  }

  lemma IssueIsSerial(s: Store, c: Call, who: Subject, f: Option<string>)
    requires c.Login? || c.CreateSession?
    requires AccessesNameSessions(s)
    ensures Complete(s, c, AfterCredentials(who, f, c.env))
         == IssueStep(s, c.tenantId, who.userId, who.email, who.username, f, c.clientId, c.env)
  {
    var t, e := c.tenantId, c.env;
    if e.dpop.BadProof? {
    } else if Truthy(f).None? {
      OpenIsSerial(s, c, who, None);
    } else {
      var n := Ahead(s, c, AtLogin(FindDevice(who, Truthy(f).value)));
      if n.pc == AtLogin(AddDevice(who, Truthy(f).value)) || n.pc.login.UpdateDevice? {
        n := Ahead(n.store, c, n.pc);
      }
      if n.pc.AtLogin? {
        OpenIsSerial(n.store, c, who, n.pc.login.device);
      }
    }
  }

  lemma LoginIsSerial(s: Store, c: Call)
    requires c.Login? && AccessesNameSessions(s)
    ensures Complete(s, c, Start(c)) == Step(s, c)
  {
    var n := Ahead(s, c, Start(c));
    n := Ahead(n.store, c, n.pc);
    var found := FirstUser(s.users, c.tenantId, c.identifier);
    if found.Some? && CredentialError(found.value, c.password).None? {
      var u := found.value;
      IssueIsSerial(n.store, c, Subject(u.id, u.email, u.username), c.fingerprint);
    }
  }

  lemma AccessIsSerial(s: Store, c: Call, sid: string, who: Subject, cl: string, next: AfterAccess)
    requires next.ThenSign? ==> c.Refresh?
    ensures Complete(s, c, AtAccess(FindAccess(sid, who, cl, next)))
         == match AccessStep(s, c.tenantId, sid, who.userId, Some(cl))
            case None => Outcome(s, Failed(ConstraintViolation))
            case Some(s') => Complete(s', c, AfterRecorded(sid, who, next))
  {
    var n := Ahead(s, c, AtAccess(FindAccess(sid, who, cl, next)));
    if Access(c.tenantId, sid, cl) !in s.accesses {
      n := Ahead(n.store, c, n.pc);
      n := Ahead(n.store, c, n.pc);
    }
  }

  lemma WriteIsSerial(s: Store, c: Call, sid: string, who: Subject)
    requires c.Refresh? && Key(c.tenantId, sid) in s.sessions
    ensures Complete(s, c, AtRefresh(WriteHash(sid, who)))
         == match AccessStep(RotateSession(s, Key(c.tenantId, sid), c.env), c.tenantId, sid, who.userId,
                             Truthy(c.clientId))
            case None => Outcome(RotateSession(s, Key(c.tenantId, sid), c.env), Failed(ConstraintViolation))
            case Some(s2) => Complete(s2, c, AtRefresh(SignNext(sid, who)))
  {
    var n := Ahead(s, c, AtRefresh(WriteHash(sid, who)));
    if Truthy(c.clientId).Some? {
      AccessIsSerial(n.store, c, sid, who, Truthy(c.clientId).value, ThenSign);
    }
  }

  lemma RotateIsSerial(s: Store, c: Call, sid: string)
    requires c.Refresh? && Key(c.tenantId, sid) in s.sessions
    ensures Complete(s, c, AtRefresh(WriteHash(sid, OwnerOf(s, c.tenantId, s.sessions[Key(c.tenantId, sid)].userId))))
         == RotateStep(s, c.tenantId, sid, c.clientId, c.env)
  {
    var u := s.sessions[Key(c.tenantId, sid)].userId;
    var who := OwnerOf(s, c.tenantId, u);
    WriteIsSerial(s, c, sid, who);
    var after := AccessStep(RotateSession(s, Key(c.tenantId, sid), c.env), c.tenantId, sid, u, Truthy(c.clientId));
  }

  lemma CloseIsSerial(s: Store, c: Call, u: string, after: AfterClose)
    requires c.Refresh? || (c.RevokeAll? && after.ThenReply?)
    ensures Complete(s, c, AtClose(CloseRows(u, after)))
         == Complete(CloseUser(s, c.tenantId, u, ClosingTime(c)), c, AfterClosed(u, after))
  {
  }

  lemma RefreshIsSerial(s: Store, c: Call)
    requires c.Refresh?
    ensures Complete(s, c, Start(c)) == Step(s, c)
  {
    var p := ParseToken(c.refreshToken);
    if p.Some? && Key(c.tenantId, p.value.0) in s.sessions {
      var sid := p.value.0;
      var row := s.sessions[Key(c.tenantId, sid)];
      var n := Ahead(s, c, Start(c));
      if row.revokedAt.Some? {
        CloseIsSerial(s, c, row.userId, ThenReply(Failed(RevokedSession)));
      } else if row.refreshVerHash != Sha256(p.value.1) {
        n := Ahead(n.store, c, n.pc);
        CloseIsSerial(n.store, c, row.userId, ThenReport(sid));
      } else if !c.env.dpop.BadProof? {
        RotateIsSerial(s, c, sid);
      }
    }
  }

  lemma NameIsSerial(s: Store, c: Call, u: User)
    ensures Complete(s, c, AfterEmail(u))
         == if Truthy(u.username).Some? && UserByName(s.users, u.tenantId, u.username.value).Some?
            then Outcome(s, Failed(DuplicateUsername)) else Complete(s, c, AtUser(AddUser(u)))
  {
    var n := Ahead(s, c, AfterEmail(u));
  }

  lemma RegisterIsSerial(s: Store, c: Call)
    requires c.Register?
    ensures Complete(s, c, Start(c)) == Step(s, c)
  {
    var u := NewUser(c.tenantId, c.newEmail, c.newPassword, c.newUsername, c.newId, c.salt);
    NameIsSerial(s, c, u);
  }

  lemma MigrationIsSerial(s: Store, c: Call, u: User)
    requires c.Verify?
    ensures Complete(s, c, AtUser(SaveMigration(u)))
         == Outcome(MigrateStep(s, u, Argon2(c.password, c.salt)), Verified(u.id))
  {
    var n := Ahead(s, c, AtUser(SaveMigration(u)));
    n := Ahead(n.store, c, n.pc);
  }

  lemma VerifyIsSerial(s: Store, c: Call)
    requires c.Verify?
    ensures Complete(s, c, Start(c)) == Step(s, c)
  {
    var n := Ahead(s, c, Start(c));
    var found := FirstUser(s.users, c.tenantId, c.identifier);
    if found.Some? && VerifyError(found.value, c.password).None? && found.value.migration.Legacy? {
      MigrationIsSerial(s, c, found.value);
    }
  }

  /**
   * For every call: running its database calls one after another, undisturbed, is the atomic step. The tables
   * obey the foreign key from accesses to sessions, as the database makes them.
   */
  lemma SerialIsAtomic(s: Store, c: Call)
    requires AccessesNameSessions(s)
    ensures Complete(s, c, Start(c)) == Step(s, c)
  {
    match c
    case Login(_, _, _, _, _, _) => LoginIsSerial(s, c);
    case CreateSession(_, u, em, n, _, _) => IssueIsSerial(s, c, Subject(u, em, n), None);
    case Refresh(_, _, _, _) => RefreshIsSerial(s, c);
    case Consent(_, u, sid, cl) =>
      var n := Ahead(s, c, AtConsent);
      AccessIsSerial(s, c, sid, Subject(u, None, None), cl, ThenDone);
    case Revoke(t, token, now) =>
      var n := Ahead(s, c, Start(c));
      n := Ahead(n.store, c, n.pc);
    case RevokeOne(t, _, sid, now) =>
      var n := Ahead(s, c, Start(c));
      n := Ahead(n.store, c, n.pc);
      n := Ahead(n.store, c, n.pc);
    case RevokeAll(_, u, _) => CloseIsSerial(s, c, u, ThenReply(Success));
    case Register(_, _, _, _, _, _) => RegisterIsSerial(s, c);
    case Verify(_, _, _, _) => VerifyIsSerial(s, c);
  }
}
