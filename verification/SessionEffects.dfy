/**
 * What one call does to the session table alone. The larger proofs use these summaries instead of the
 * bodies in SessionSpec.dfy.
 */
module SessionEffects {
  import opened Text
  import opened Tables
  import opened SessionSpec

  /** The replies of a login that left a session behind, whether or not its tokens reached the caller. */
  predicate Issued(r: Reply) {
    r.Tokens? || (r.Failed? && r.error.SigningFailed?)
  }

  /** The replies of a refresh that consumed the presented token. */
  predicate Redeemed(r: Reply) {
    Issued(r) || r == Failed(ConstraintViolation)
  }

  /** The user a session was opened or rotated for, as the reply names them. */
  function Subject(r: Reply): string
    requires Issued(r)
  {
    if r.Tokens? then r.accessToken.sub else r.error.userId
  }

  predicate IsNewSession(row: Session, userId: string, e: Env) {
    row.userId == userId && row.refreshVerHash == Sha256(e.tokenValue) && row.revokedAt.None?
  }

  /** Opening a session adds one unrevoked row under an unused key, or changes nothing. */
  predicate OpensOne(m: map<Key, Session>, m': map<Key, Session>, t: string, e: Env, r: Reply) {
    var k := Key(t, e.sessionId);
    if Issued(r) then k !in m && k in m' && m' == m[k := m'[k]] && IsNewSession(m'[k], Subject(r), e)
    else m' == m
  }

  lemma IssueEffect(s: Store, t: string, userId: string, email: Option<string>, username: Option<string>,
                    fingerprint: Option<string>, clientId: Option<string>, e: Env)
    ensures var o := IssueStep(s, t, userId, email, username, fingerprint, clientId, e);
            OpensOne(s.sessions, o.store.sessions, t, e, o.reply)
  {
    var d := DeviceStep(s, t, userId, fingerprint, e);
    if d.Some? {
      assert d.value.0.sessions == s.sessions;
      var s2 := InsertSession(d.value.0, t, userId, d.value.1, Truthy(clientId), e);
      var m, m', k := s.sessions, s2.sessions, Key(t, e.sessionId);
      assert m' == m[k := m'[k]];
    }
  }

  lemma LoginEffect(s: Store, t: string, identifier: string, password: string, fingerprint: Option<string>,
                    clientId: Option<string>, e: Env)
    ensures var o := LoginStep(s, t, identifier, password, fingerprint, clientId, e);
            OpensOne(s.sessions, o.store.sessions, t, e, o.reply)
  {
    var found := FirstUser(s.users, t, identifier);
    if found.Some? {
      var u := found.value;
      IssueEffect(LogAttempt(s, t, identifier, true, e), t, u.id, u.email, u.username, fingerprint, clientId, e);
    }
  }

  function Rotated(row: Session, e: Env): Session {
    row.(refreshVerHash := Sha256(e.tokenValue), origin := e.origin, lastSeenAt := e.now)
  }

  /** Closing a user's sessions after the one at `k`; a row already closed keeps its place. */
  function ClosedFrom(m: map<Key, Session>, k: Key, now: int): map<Key, Session>
    requires k in m
  {
    CloseUserRows(m[k := m[k].(revokedAt := Some(now))], k.tenantId, m[k].userId, now)
  }

  /** Refresh rotates one passing row, or closes everything its owner has open, or changes nothing. */
  predicate RotatesOne(m: map<Key, Session>, m': map<Key, Session>, t: string, token: string, e: Env, r: Reply) {
    var p := ParseToken(token);
    if Redeemed(r) then
      p.Some? && Key(t, p.value.0) in m && m[Key(t, p.value.0)].revokedAt.None?
      && m[Key(t, p.value.0)].refreshVerHash == Sha256(p.value.1)
      && m' == m[Key(t, p.value.0) := Rotated(m[Key(t, p.value.0)], e)]
    else if r == Failed(RevokedSession) then
      p.Some? && Key(t, p.value.0) in m && m[Key(t, p.value.0)].revokedAt.Some?
      && m' == CloseUserRows(m, t, m[Key(t, p.value.0)].userId, e.now)
    else if r == Failed(TokenReuse) then
      p.Some? && Key(t, p.value.0) in m && m[Key(t, p.value.0)].revokedAt.None?
      && m[Key(t, p.value.0)].refreshVerHash != Sha256(p.value.1)
      && m' == ClosedFrom(m, Key(t, p.value.0), e.now)
    else m' == m
  }

  lemma RefreshEffect(s: Store, t: string, token: string, clientId: Option<string>, e: Env)
    ensures var o := RefreshStep(s, t, token, clientId, e);
            RotatesOne(s.sessions, o.store.sessions, t, token, e, o.reply)
  {
    var p := ParseToken(token);
    if p.Some? && Key(t, p.value.0) in s.sessions {
      var k := Key(t, p.value.0);
      var s1 := RotateSession(s, k, e);
      assert s1.sessions == s.sessions[k := Rotated(s.sessions[k], e)];
    }
  }

  /** The session table after a call, by kind of call. */
  predicate Effect(m: map<Key, Session>, c: Call, r: Reply, m': map<Key, Session>) {
    match c
    case Login(t, _, _, _, _, e) => OpensOne(m, m', t, e, r)
    case CreateSession(t, _, _, _, _, e) => OpensOne(m, m', t, e, r)
    case Refresh(t, token, _, e) => RotatesOne(m, m', t, token, e, r)
    case Revoke(t, token, now) =>
      var p := ParseToken(token);
      if r.Success? then p.Some? && ClosesOne(m, m', Key(t, p.value.0), now) else m' == m
    case RevokeOne(t, u, sid, now) =>
      if r.Success? then ClosesOne(m, m', Key(t, sid), now) && m[Key(t, sid)].userId == u else m' == m
    case RevokeAll(t, u, now) => m' == CloseUserRows(m, t, u, now)
    case _ => m' == m
  }

  predicate ClosesOne(m: map<Key, Session>, m': map<Key, Session>, k: Key, now: int) {
    k in m && m' == m[k := m[k].(revokedAt := Some(now))]
  }

  lemma StepEffect(s: Store, c: Call)
    ensures Effect(s.sessions, c, Step(s, c).reply, Step(s, c).store.sessions)
  {
    match c
    case Login(t, i, p, f, cl, e) => LoginEffect(s, t, i, p, f, cl, e);
    case CreateSession(t, u, em, n, cl, e) => IssueEffect(s, t, u, em, n, None, cl, e);
    case Refresh(t, token, cl, e) => RefreshEffect(s, t, token, cl, e);
    case _ =>
  }

  // ---------------------------------------------------------------- revocation is for good

  /** Sessions are never deleted, change owner or lose a revocation. */
  predicate Grows(m: map<Key, Session>, m': map<Key, Session>) {
    forall k :: k in m ==> k in m' && m'[k].userId == m[k].userId && (m[k].revokedAt.Some? ==> m'[k].revokedAt.Some?)
  }

  lemma RotationGrows(m: map<Key, Session>, m': map<Key, Session>, t: string, token: string, e: Env, r: Reply)
    requires RotatesOne(m, m', t, token, e, r)
    ensures Grows(m, m')
  {
  }

  lemma EffectGrows(m: map<Key, Session>, c: Call, r: Reply, m': map<Key, Session>)
    requires Effect(m, c, r, m')
    ensures Grows(m, m')
  {
    match c
    case Refresh(t, token, _, e) => RotationGrows(m, m', t, token, e, r);
    case _ =>
  }

  lemma {:induction false} RunGrows(s: Store, cs: seq<Call>)
    ensures Grows(s.sessions, Run(s, cs).sessions)
    decreases cs
  {
    if cs != [] {
      var s' := Step(s, cs[0]).store;
      StepEffect(s, cs[0]);
      EffectGrows(s.sessions, cs[0], Step(s, cs[0]).reply, s'.sessions);
      RunGrows(s', cs[1..]);
    }
  }
}
