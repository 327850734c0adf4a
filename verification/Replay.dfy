/**
 * What detecting a replay does, now and for the rest of the run; and the book-keeping of product accesses.
 */
module Replay {
  import opened Text
  import opened Tables
  import opened SessionSpec
  import opened SessionEffects

  /** The refresh was refused because the session is revoked or the token is not its current one. */
  predicate Detected(r: Reply) {
    r == Failed(RevokedSession) || r == Failed(TokenReuse)
  }

  /** Replay is reported exactly for well-formed tokens that name a session of the tenant and do not pass. */
  lemma DetectedIff(s: Store, t: string, token: string, clientId: Option<string>, e: Env)
    ensures Detected(RefreshStep(s, t, token, clientId, e).reply)
            <==> ParseToken(token).Some? && Key(t, ParseToken(token).value.0) in s.sessions && !Passes(s, t, token)
  {
  }

  /**
   * The user has no active session left in the tenant, and no other session row anywhere changes. A mismatch
   * on an open session also reports the hijack, after the notice that all sessions were revoked.
   */
  lemma ReplayClosesUser(s: Store, t: string, token: string, clientId: Option<string>, e: Env)
    requires Detected(RefreshStep(s, t, token, clientId, e).reply)
    ensures var o, sid := RefreshStep(s, t, token, clientId, e), ParseToken(token).value.0;
            var u := s.sessions[Key(t, sid)].userId;
            && ActiveSessions(o.store, t, u) == {}
            && o.store.sessions.Keys == s.sessions.Keys
            && (forall k :: k in s.sessions && (k.tenantId != t || s.sessions[k].userId != u)
                            ==> o.store.sessions[k] == s.sessions[k])
            && o.store.outbox == s.outbox + [OutboxRow(t, AllSessionsRevoked(u))]
                 + (if o.reply == Failed(TokenReuse)
                    then [OutboxRow(t, SessionHijackDetected(u, sid, e.origin))] else [])
  {
    RefreshEffect(s, t, token, clientId, e);
  }

  /** A revoked session makes every token that names it unusable for the rest of any run. */
  lemma RevokedNeverPasses(s: Store, cs: seq<Call>, t: string, token: string)
    requires ParseToken(token).Some?
    requires Key(t, ParseToken(token).value.0) in s.sessions
    requires s.sessions[Key(t, ParseToken(token).value.0)].revokedAt.Some?
    ensures !Passes(Run(s, cs), t, token)
  {
    RunGrows(s, cs);
  }

  /**
   * After a detected replay, whatever calls follow, no token of any session the user had in that tenant is
   * ever accepted again.
   */
  lemma ReplayKillsEarlierTokens(s: Store, c: Call, cs: seq<Call>, token: string)
    requires c.Refresh? && Detected(Step(s, c).reply)
    requires ParseToken(token).Some? && Key(c.tenantId, ParseToken(token).value.0) in s.sessions
    requires s.sessions[Key(c.tenantId, ParseToken(token).value.0)].userId
          == s.sessions[Key(c.tenantId, ParseToken(c.refreshToken).value.0)].userId
    ensures !Passes(Run(Step(s, c).store, cs), c.tenantId, token)
  {
    var k := Key(c.tenantId, ParseToken(token).value.0);
    RefreshEffect(s, c.tenantId, c.refreshToken, c.clientId, c.env);
    assert Step(s, c).store.sessions[k].revokedAt.Some?;
    RevokedNeverPasses(Step(s, c).store, cs, c.tenantId, token);
  }

  // ---------------------------------------------------------------- product accesses

  /** The accesses the audit trail reports, with multiplicity. */
  function Audited(audits: seq<Audit>): multiset<Access> {
    if audits == [] then multiset{} else multiset{audits[0].access} + Audited(audits[1..])
  }

  lemma {:induction false} AuditedAppend(audits: seq<Audit>, a: Audit)
    ensures Audited(audits + [a]) == Audited(audits) + multiset{a.access}
  {
    if audits == [] {
      assert audits + [a] == [a];
    } else {
      assert (audits + [a])[1..] == audits[1..] + [a];
      AuditedAppend(audits[1..], a);
    }
  }

  /**
   * Access rows and `SSO_PRODUCT_ACCESS` audit entries correspond one to one; each names an existing session,
   * and the audit entry names that session's owner and tenant.
   */
  ghost predicate Accounted(s: Store) {
    Balanced(s.audits, s.accesses, s.sessions)
  }

  ghost predicate Balanced(audits: seq<Audit>, accesses: set<Access>, m: map<Key, Session>) {
    && Audited(audits) == multiset(accesses)
    && (forall a :: a in accesses ==> Key(a.tenantId, a.sessionId) in m)
    && (forall x :: x in audits ==>
          && x.tenantId == x.access.tenantId
          && Key(x.tenantId, x.access.sessionId) in m
          && m[Key(x.tenantId, x.access.sessionId)].userId == x.actorId)
  }

  /** The one access a call could add. */
  function Candidate(c: Call): Access {
    match c
    case Login(t, _, _, _, cl, e) => Access(t, e.sessionId, ClientName(cl))
    case CreateSession(t, _, _, _, cl, e) => Access(t, e.sessionId, ClientName(cl))
    case Refresh(t, token, cl, _) =>
      Access(t, if ParseToken(token).Some? then ParseToken(token).value.0 else "", ClientName(cl))
    case Consent(t, _, sid, cl) => Access(t, sid, cl)
    case _ => Access("", "", "")
  }

  function ClientName(cl: Option<string>): string {
    if cl.Some? then cl.value else ""
  }

  /** One new access of a session that is open, with its audit entry; or neither. */
  predicate GrantsAtMost(s: Store, s': Store, a: Access) {
    || (s'.accesses == s.accesses && s'.audits == s.audits)
    || (&& a !in s.accesses && s'.accesses == s.accesses + {a}
        && Key(a.tenantId, a.sessionId) in s'.sessions
        && s'.sessions[Key(a.tenantId, a.sessionId)].revokedAt.None?
        && s'.audits == s.audits
             + [SsoProductAccess(a.tenantId, s'.sessions[Key(a.tenantId, a.sessionId)].userId, a)])
  }

  lemma OpenGrants(s: Store, t: string, userId: string, deviceId: Option<string>, email: Option<string>,
                   username: Option<string>, client: Option<string>, e: Env)
    requires AccessesNameSessions(s) && Key(t, e.sessionId) !in s.sessions
    ensures GrantsAtMost(s, OpenStep(s, t, userId, deviceId, email, username, client, e).store,
                         Access(t, e.sessionId, ClientName(client)))
  {
  }

  lemma IssueGrants(s: Store, t: string, userId: string, email: Option<string>, username: Option<string>,
                    fingerprint: Option<string>, clientId: Option<string>, e: Env)
    requires AccessesNameSessions(s)
    ensures GrantsAtMost(s, IssueStep(s, t, userId, email, username, fingerprint, clientId, e).store,
                         Access(t, e.sessionId, ClientName(clientId)))
  {
    var d := DeviceStep(s, t, userId, fingerprint, e);
    if d.Some? {
      var s1 := d.value.0;
      assert s1.accesses == s.accesses && s1.audits == s.audits && s1.sessions == s.sessions;
      if SessionAdmitted(s1, t, userId, Truthy(clientId), e) {
        OpenGrants(s1, t, userId, d.value.1, email, username, Truthy(clientId), e);
        assert Truthy(clientId).Some? ==> ClientName(clientId) == ClientName(Truthy(clientId));
      }
    }
  }

  lemma RefreshGrants(s: Store, t: string, token: string, clientId: Option<string>, e: Env)
    ensures GrantsAtMost(s, RefreshStep(s, t, token, clientId, e).store, Candidate(Refresh(t, token, clientId, e)))
  {
  }

  lemma StepGrants(s: Store, c: Call)
    requires AccessesNameSessions(s)
    ensures GrantsAtMost(s, Step(s, c).store, Candidate(c))
  {
    match c
    case Login(t, i, p, f, cl, e) =>
      var found := FirstUser(s.users, t, i);
      if found.Some? {
        var u := found.value;
        IssueGrants(LogAttempt(s, t, i, true, e), t, u.id, u.email, u.username, f, cl, e);
      }
    case CreateSession(t, u, em, n, cl, e) => IssueGrants(s, t, u, em, n, None, cl, e);
    case Refresh(t, token, cl, e) => RefreshGrants(s, t, token, cl, e);
    case _ =>
  }

  lemma GrantsKeepBalance(s: Store, s': Store, a: Access)
    requires Accounted(s) && GrantsAtMost(s, s', a) && Grows(s.sessions, s'.sessions)
    ensures Accounted(s')
  {
    if s'.accesses != s.accesses {
      var x := SsoProductAccess(a.tenantId, s'.sessions[Key(a.tenantId, a.sessionId)].userId, a);
      AuditedAppend(s.audits, x);
      assert multiset(s.accesses + {a}) == multiset(s.accesses) + multiset{a};
    }
  }

  /**
   * One uninterrupted call keeps accesses and audit entries in correspondence, and adds an access only to a
   * session that is still open when the call returns.
   */
  lemma StepAccounted(s: Store, c: Call)
    requires Accounted(s)
    ensures Accounted(Step(s, c).store)
    ensures forall a :: a in Step(s, c).store.accesses && a !in s.accesses ==>
              Key(a.tenantId, a.sessionId) in Step(s, c).store.sessions
              && Step(s, c).store.sessions[Key(a.tenantId, a.sessionId)].revokedAt.None?
  {
    StepGrants(s, c);
    StepEffect(s, c);
    EffectGrows(s.sessions, c, Step(s, c).reply, Step(s, c).store.sessions);
    GrantsKeepBalance(s, Step(s, c).store, Candidate(c));
  }

  /** In every state a run of uninterrupted calls reaches, accesses and their audit entries correspond. */
  lemma {:induction false} RunAccounted(s: Store, cs: seq<Call>)
    requires Accounted(s)
    ensures Accounted(Run(s, cs))
    decreases cs
  {
    if cs != [] {
      StepAccounted(s, cs[0]);
      RunAccounted(Step(s, cs[0]).store, cs[1..]);
    }
  }
}
