/**
 * What a detected replay does when other database calls come in between: every session the user had when the call
 * closed the rows, or when the call was made, is revoked for good, and a session inserted afterwards is not.
 */
module ReplaySchedules {
  import opened Text
  import opened Tables
  import opened SessionSpec
  import opened SessionEffects
  import opened OneTimeTokens
  import opened Interleaving
  import opened Concurrency
  import opened Replay

  // ---------------------------------------------------------------- what is closed

  /** Every session the user has in table `m0` is revoked in table `m`. */
  predicate AllClosed(m0: map<Key, Session>, m: map<Key, Session>, t: string, u: string) {
    forall q :: q in m0 && q.tenantId == t && m0[q].userId == u ==> q in m && m[q].revokedAt.Some?
  }

  /** How far a refresh of a session owned by `u` has come in closing the sessions of table `m0`. */
  predicate Sweeps(p: Proc, m0: map<Key, Session>, m: map<Key, Session>, u: string) {
    match p.pc
    case AtRefresh(f) => f.CloseReused? ==> f.userId == u
    case AtClose(x) =>
      (match x
       case CloseRows(v, _) => v == u
       case ReportRows(_, _) => AllClosed(m0, m, p.call.tenantId, u)
       case ReportHijack(_, _) => AllClosed(m0, m, p.call.tenantId, u)
       case _ => true)
    case Finished(r) => Detected(r) ==> AllClosed(m0, m, p.call.tenantId, u)
    case _ => true
  }

  lemma AdvanceSweeps(s: Store, p: Proc, m0: map<Key, Session>, k: Key)
    requires RefreshOf(p, k) && Fits(p.call, p.pc) && OnCourse(p.call, p.pc) && Grows(m0, s.sessions) && k in m0
    requires Sweeps(p, m0, s.sessions, m0[k].userId)
    ensures var n := Advance(s, p.call, p.pc);
            Sweeps(p.(pc := n.pc), m0, n.store.sessions, m0[k].userId)
  {
  }

  lemma Act1Sweeps(c: Config, a: Act, j: nat, m0: map<Key, Session>, k: Key)
    requires Valid(c) && AllOnCourse(c) && Grows(m0, c.store.sessions) && k in m0
    requires j < |Act1(c, a).procs| && RefreshOf(Act1(c, a).procs[j], k)
    requires j < |c.procs| ==> Sweeps(c.procs[j], m0, c.store.sessions, m0[k].userId)
    ensures Sweeps(Act1(c, a).procs[j], m0, Act1(c, a).store.sessions, m0[k].userId)
  {
    Act1Grows(c, a);
    if a == Resume(j) && j < |c.procs| {
      AdvanceSweeps(c.store, c.procs[j], m0, k);
    }
  }

  lemma {:induction false} ExecSweeps(c: Config, acts: seq<Act>, j: nat, m0: map<Key, Session>, k: Key)
    requires Valid(c) && AllOnCourse(c) && Grows(m0, c.store.sessions) && k in m0
    requires j < |Exec(c, acts).procs| && RefreshOf(Exec(c, acts).procs[j], k)
    requires j < |c.procs| ==> Sweeps(c.procs[j], m0, c.store.sessions, m0[k].userId)
    ensures Sweeps(Exec(c, acts).procs[j], m0, Exec(c, acts).store.sessions, m0[k].userId)
    decreases acts
  {
    if acts != [] {
      var c' := Act1(c, acts[0]);
      Act1OnCourse(c, acts[0]);
      Act1Grows(c, acts[0]);
      if j < |c'.procs| {
        ExecKeepsCalls(c', acts[1..], j);
        Act1Sweeps(c, acts[0], j, m0, k);
      }
      ExecSweeps(c', acts[1..], j, m0, k);
    }
  }

  /**
   * Under every schedule: when a refresh is answered that its session is revoked or its token was reused, every
   * session its owner had in the tenant when the schedule began is revoked.
   */
  lemma DetectionClosesOwner(s: Store, acts: seq<Act>, j: nat, k: Key)
    requires k in s.sessions
    requires var c := Exec(Config(s, []), acts);
             && j < |c.procs| && RefreshOf(c.procs[j], k)
             && c.procs[j].pc.Finished? && Detected(c.procs[j].pc.reply)
    ensures AllClosed(s.sessions, Exec(Config(s, []), acts).store.sessions, k.tenantId, s.sessions[k].userId)
  {
    ExecSweeps(Config(s, []), acts, j, s.sessions, k);
  }

  /**
   * A client holds a token that passes, and refreshes with it from several requests at a time while other clients and
   * services go on. Whichever of its calls finishes reports a hijack exactly when it read late; and then every session
   * its user had in the tenant is revoked, so that none of their tokens is accepted ever again.
   */
  lemma ClientOverlapReportsIff(s: Store, t: string, token: string, acts: seq<Act>, j: nat)
    requires Passes(s, t, token)
    requires Burst(Config(s, []), acts, Key(t, ParseToken(token).value.0), ParseToken(token).value.1)
    requires var c := Exec(Config(s, []), acts);
             && j < |c.procs| && c.procs[j].pc.Finished?
             && RefreshOf(c.procs[j], Key(t, ParseToken(token).value.0))
    ensures var c, k := Exec(Config(s, []), acts), Key(t, ParseToken(token).value.0);
            && (c.procs[j].pc.reply == Failed(TokenReuse) <==> LateRead(Config(s, []), acts, j, k))
            && (c.procs[j].pc.reply == Failed(TokenReuse) ==>
                  AllClosed(s.sessions, c.store.sessions, t, s.sessions[k].userId))
  {
    var k := Key(t, ParseToken(token).value.0);
    OverlapReportsIff(Config(s, []), acts, j, k, ParseToken(token).value.1);
    if Exec(Config(s, []), acts).procs[j].pc.reply == Failed(TokenReuse) {
      DetectionClosesOwner(s, acts, j, k);
    }
  }

  function LateSecond(r1: Call, r2: Call): seq<Act> {
    FirstWrites(r1, r2) + [Resume(1), Resume(1), Resume(1), Resume(1), Resume(1)]
  }

  function FirstWrites(r1: Call, r2: Call): seq<Act> {
    [Begin(r1), Begin(r2), Resume(0), Resume(0)]
  }

  /** Two refreshes begin, and the first reads and writes. */
  lemma FirstWritesEnds(s: Store, t: string, token: string, e1: Env, e2: Env)
    requires Passes(s, t, token) && !e1.dpop.BadProof?
    ensures var k := Key(t, ParseToken(token).value.0);
            var r1, r2 := Refresh(t, token, None, e1), Refresh(t, token, None, e2);
            Exec(Config(s, []), FirstWrites(r1, r2))
            == Config(RotateSession(s, k, e1),
                      [Proc(r1, AtRefresh(SignNext(k.id, OwnerOf(s, t, s.sessions[k].userId)))),
                       Proc(r2, AtRefresh(ReadSession(k.id, ParseToken(token).value.1)))])
  {
    var sid, val := ParseToken(token).value.0, ParseToken(token).value.1;
    var r1, r2 := Refresh(t, token, None, e1), Refresh(t, token, None, e2);
    var acts, read := FirstWrites(r1, r2), AtRefresh(ReadSession(sid, val));
    var c0 := Config(s, []);
    var c1 := Act1(c0, acts[0]);
    var c2 := Act1(c1, acts[1]);
    assert c2 == Config(s, [Proc(r1, read), Proc(r2, read)]);
    var c3 := Act1(c2, acts[2]);
    var c4 := Act1(c3, acts[3]);
    assert Exec(c0, acts) == c4 by {
      ExecCons(c0, acts);
      ExecCons(c1, acts[1..]);
      ExecCons(c2, acts[2..]);
      ExecCons(c3, acts[3..]);
    }
  }

  /** A refresh that presents another token than the session's runs undisturbed beside a call that rests. */
  lemma SecondReports(s: Store, t: string, sid: string, val: string, first: Proc, r2: Call)
    requires r2.Refresh? && r2.tenantId == t && Fits(first.call, first.pc)
    requires IsOpen(s.sessions, Key(t, sid)) && s.sessions[Key(t, sid)].refreshVerHash != Sha256(val)
    ensures var k := Key(t, sid);
            var u := s.sessions[k].userId;
            var closed := CloseUser(CloseSession(s, k, r2.env.now), t, u, r2.env.now);
            Exec(Config(s, [first, Proc(r2, AtRefresh(ReadSession(sid, val)))]),
                 [Resume(1), Resume(1), Resume(1), Resume(1), Resume(1)])
            == Config(AppendEvent(closed, t, SessionHijackDetected(u, sid, r2.env.origin)),
                      [first, Proc(r2, Finished(Failed(TokenReuse)))])
  {
    var k, now := Key(t, sid), r2.env.now;
    var u := s.sessions[k].userId;
    var acts: seq<Act> := [Resume(1), Resume(1), Resume(1), Resume(1), Resume(1)];
    var c0 := Config(s, [first, Proc(r2, AtRefresh(ReadSession(sid, val)))]);
    var c1 := Act1(c0, acts[0]);
    assert c1 == Config(s, [first, Proc(r2, AtRefresh(CloseReused(sid, u)))]);
    var c2 := Act1(c1, acts[1]);
    var s1 := CloseSession(s, k, now);
    assert c2 == Config(s1, [first, Proc(r2, AtClose(CloseRows(u, ThenReport(sid))))]);
    var c3 := Act1(c2, acts[2]);
    var c4 := Act1(c3, acts[3]);
    assert c4 == Config(CloseUser(s1, t, u, now), [first, Proc(r2, AtClose(ReportHijack(u, sid)))]);
    var c5 := Act1(c4, acts[4]);
    assert Exec(c0, acts) == c5 by {
      ExecCons(c0, acts);
      ExecCons(c1, acts[1..]);
      ExecCons(c2, acts[2..]);
      ExecCons(c3, acts[3..]);
      ExecCons(c4, acts[4..]);
    }
  }

  lemma NoneActiveAfterReuse(s: Store, k: Key, now: int, origin: Origin)
    requires k in s.sessions
    ensures var u := s.sessions[k].userId;
            var closed := CloseUser(CloseSession(s, k, now), k.tenantId, u, now);
            ActiveSessions(AppendEvent(closed, k.tenantId, SessionHijackDetected(u, k.id, origin)), k.tenantId, u) == {}
  {
  }

  /**
   * It happens: from every state with a token that passes, two refreshes with it, of which the second reads after the
   * first has written, end with a hijack report and without a single active session of the user.
   */
  lemma OverlapLogsOut(s: Store, t: string, token: string, e1: Env, e2: Env)
    requires Passes(s, t, token) && !e1.dpop.BadProof? && e1.tokenValue != ParseToken(token).value.1
    ensures var k := Key(t, ParseToken(token).value.0);
            var u := s.sessions[k].userId;
            var c := Exec(Config(s, []), LateSecond(Refresh(t, token, None, e1), Refresh(t, token, None, e2)));
            && |c.procs| == 2
            && c.procs[1].pc == Finished(Failed(TokenReuse))
            && ActiveSessions(c.store, t, u) == {}
            && c.store.outbox == s.outbox + [OutboxRow(t, AllSessionsRevoked(u)),
                                             OutboxRow(t, SessionHijackDetected(u, k.id, e2.origin))]
  {
    var sid, val := ParseToken(token).value.0, ParseToken(token).value.1;
    var k, r1, r2 := Key(t, sid), Refresh(t, token, None, e1), Refresh(t, token, None, e2);
    var first := Proc(r1, AtRefresh(SignNext(sid, OwnerOf(s, t, s.sessions[k].userId))));
    FirstWritesEnds(s, t, token, e1, e2);
    SecondReports(RotateSession(s, k, e1), t, sid, val, first, r2);
    NoneActiveAfterReuse(RotateSession(s, k, e1), k, e2.now, e2.origin);
    ExecAppend(Config(s, []), FirstWrites(r1, r2), [Resume(1), Resume(1), Resume(1), Resume(1), Resume(1)]);
  }

  // ---------------------------------------------------------------- what is left open

  /** The next database call of this process inserts session `q`. */
  predicate Inserts(s: Store, c: Call, pc: Pc, q: Key)
    requires Fits(c, pc)
  {
    && pc.AtLogin? && pc.login.AddSession? && Key(c.tenantId, c.env.sessionId) == q
    && SessionAdmitted(s, c.tenantId, pc.login.who.userId, Truthy(c.clientId), c.env)
  }

  predicate ActInserts(c: Config, a: Act, q: Key)
    requires Valid(c)
  {
    a.Resume? && a.i < |c.procs| && Inserts(c.store, c.procs[a.i].call, c.procs[a.i].pc, q)
  }

  /** Some step of the schedule inserts session `q`, and no later one closes it. */
  predicate InsertedAndLeft(c: Config, acts: seq<Act>, q: Key)
    requires Valid(c)
    decreases acts
  {
    acts != []
    && (if ActInserts(c, acts[0], q) then !ClosedDuring(Act1(c, acts[0]), acts[1..], q)
        else InsertedAndLeft(Act1(c, acts[0]), acts[1..], q))
  }

  /** A session that is not there yet is open after a schedule exactly when a step inserts it and none closes it. */
  lemma {:induction false} OpenIffInserted(c: Config, acts: seq<Act>, q: Key)
    requires Valid(c) && q !in c.store.sessions
    ensures IsOpen(Exec(c, acts).store.sessions, q) <==> InsertedAndLeft(c, acts, q)
    decreases acts
  {
    if acts != [] {
      var c' := Act1(c, acts[0]);
      if ActInserts(c, acts[0], q) {
        OpenIffUnclosed(c', acts[1..], q);
      } else {
        OpenIffInserted(c', acts[1..], q);
      }
    }
  }

  /** No session of the user that a step of the schedule inserts is left open. */
  ghost predicate NoneLeft(c: Config, acts: seq<Act>, t: string, u: string)
    requires Valid(c)
  {
    forall q :: q in Exec(c, acts).store.sessions && q !in c.store.sessions
                && q.tenantId == t && Exec(c, acts).store.sessions[q].userId == u
                ==> !InsertedAndLeft(c, acts, q)
  }

  /**
   * Process `j` is about to close the user's rows. After any schedule, so also when it answers, the user has no active
   * session in the tenant if and only if none was inserted, and left open, since the rows were closed. All those that
   * were there are revoked in any case.
   */
  lemma NoneActiveIff(c: Config, j: nat, acts: seq<Act>)
    requires Valid(c) && j < |c.procs| && c.procs[j].pc.AtClose? && c.procs[j].pc.close.CloseRows?
    ensures var c1, t, u := Act1(c, Resume(j)), c.procs[j].call.tenantId, c.procs[j].pc.close.userId;
            && AllClosed(c.store.sessions, Exec(c1, acts).store.sessions, t, u)
            && (ActiveSessions(Exec(c1, acts).store, t, u) == {} <==> NoneLeft(c1, acts, t, u))
  {
    var c1, t, u := Act1(c, Resume(j)), c.procs[j].call.tenantId, c.procs[j].pc.close.userId;
    var m := Exec(c1, acts).store.sessions;
    ExecGrows(c1, acts);
    assert AllClosed(c.store.sessions, c1.store.sessions, t, u);
    forall q | q in m && q !in c1.store.sessions ensures IsOpen(m, q) <==> InsertedAndLeft(c1, acts, q) {
      OpenIffInserted(c1, acts, q);
    }
    assert forall q :: q in ActiveSessions(Exec(c1, acts).store, t, u) ==> q !in c1.store.sessions;
  }

  function ReplayAroundLogin(refresh: Call, login: Call): seq<Act> {
    [Begin(refresh), Begin(login), Resume(0), Resume(0)] + [Resume(1), Resume(0)]
  }

  /** The refresh reads a revoked session and closes the rows; the login is about to insert its session. */
  lemma RowsClosed(s: Store, t: string, token: string, e: Env, login: Call)
    requires ParseToken(token).Some? && Key(t, ParseToken(token).value.0) in s.sessions
    requires s.sessions[Key(t, ParseToken(token).value.0)].revokedAt.Some?
    ensures var u := s.sessions[Key(t, ParseToken(token).value.0)].userId;
            var refresh := Refresh(t, token, None, e);
            Exec(Config(s, []), [Begin(refresh), Begin(login), Resume(0), Resume(0)])
            == Config(s.(sessions := CloseUserRows(s.sessions, t, u, e.now)),
                      [Proc(refresh, AtClose(ReportRows(u, ThenReply(Failed(RevokedSession))))),
                       Proc(login, Start(login))])
  {
    var sid, val := ParseToken(token).value.0, ParseToken(token).value.1;
    var u, refresh := s.sessions[Key(t, sid)].userId, Refresh(t, token, None, e);
    var acts: seq<Act> := [Begin(refresh), Begin(login), Resume(0), Resume(0)];
    var c0 := Config(s, []);
    var c1 := Act1(c0, acts[0]);
    var c2 := Act1(c1, acts[1]);
    assert c2 == Config(s, [Proc(refresh, AtRefresh(ReadSession(sid, val))), Proc(login, Start(login))]);
    var c3 := Act1(c2, acts[2]);
    var c4 := Act1(c3, acts[3]);
    assert Exec(c0, acts) == c4 by {
      ExecCons(c0, acts);
      ExecCons(c1, acts[1..]);
      ExecCons(c2, acts[2..]);
      ExecCons(c3, acts[3..]);
    }
  }

  /** The login inserts its session, and then the refresh reports and answers. */
  lemma InsertedThenAnswered(s: Store, t: string, u: string, refresh: Call, e: Env)
    requires refresh.Refresh? && refresh.tenantId == t
    requires SessionAdmitted(s, t, u, None, e)
    ensures var login := CreateSession(t, u, None, None, None, e);
            var after, who := ThenReply(Failed(RevokedSession)), Subject(u, None, None);
            Exec(Config(s, [Proc(refresh, AtClose(ReportRows(u, after))), Proc(login, AtLogin(AddSession(who, None)))]),
                 [Resume(1), Resume(0)])
            == Config(AppendEvent(InsertSession(s, t, u, None, None, e), t, AllSessionsRevoked(u)),
                      [Proc(refresh, Finished(Failed(RevokedSession))), Proc(login, AtLogin(SignFirst(who)))])
  {
    var login := CreateSession(t, u, None, None, None, e);
    var after, who := ThenReply(Failed(RevokedSession)), Subject(u, None, None);
    var report, acts := Proc(refresh, AtClose(ReportRows(u, after))), [Resume(1), Resume(0)];
    var c0 := Config(s, [report, Proc(login, AtLogin(AddSession(who, None)))]);
    var c1 := Act1(c0, acts[0]);
    assert c1 == Config(InsertSession(s, t, u, None, None, e), [report, Proc(login, AtLogin(SignFirst(who)))]);
    var c2 := Act1(c1, acts[1]);
    assert Exec(c0, acts) == c2 by {
      ExecCons(c0, acts);
      ExecCons(c1, acts[1..]);
    }
  }

  lemma OnlyNewActive(s: Store, t: string, u: string, now: int, e: Env)
    requires Key(t, e.sessionId) !in s.sessions
    ensures var closed := s.(sessions := CloseUserRows(s.sessions, t, u, now));
            ActiveSessions(InsertSession(closed, t, u, None, None, e), t, u) == {Key(t, e.sessionId)}
  {
  }

  /** It happens: a login that inserts its session between the closing of the rows and the answer keeps it open. */
  lemma LoginSurvivesReplay(s: Store, t: string, token: string, e: Env, e': Env)
    requires ParseToken(token).Some? && Key(t, ParseToken(token).value.0) in s.sessions
    requires s.sessions[Key(t, ParseToken(token).value.0)].revokedAt.Some? && !e'.dpop.BadProof?
    requires SessionAdmitted(s, t, s.sessions[Key(t, ParseToken(token).value.0)].userId, None, e')
    ensures var u := s.sessions[Key(t, ParseToken(token).value.0)].userId;
            var c := Exec(Config(s, []), ReplayAroundLogin(Refresh(t, token, None, e),
                                                           CreateSession(t, u, None, None, None, e')));
            && |c.procs| == 2 && c.procs[0].pc == Finished(Failed(RevokedSession))
            && ActiveSessions(c.store, t, u) == {Key(t, e'.sessionId)}
  {
    var u := s.sessions[Key(t, ParseToken(token).value.0)].userId;
    var refresh, login := Refresh(t, token, None, e), CreateSession(t, u, None, None, None, e');
    var closed := s.(sessions := CloseUserRows(s.sessions, t, u, e.now));
    RowsClosed(s, t, token, e, login);
    InsertedThenAnswered(closed, t, u, refresh, e');
    ExecAppend(Config(s, []), [Begin(refresh), Begin(login), Resume(0), Resume(0)], [Resume(1), Resume(0)]);
    OnlyNewActive(s, t, u, e.now, e');
    var s' := InsertSession(closed, t, u, None, None, e');
    assert ActiveSessions(AppendEvent(s', t, AllSessionsRevoked(u)), t, u) == ActiveSessions(s', t, u);
  }
}
