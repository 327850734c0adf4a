/**
 * Crash consistency: the process may stop between any two database calls, which is a schedule that never runs
 * some calls again. Whatever it leaves behind, users and `UserCreated` events are one to one, and session events
 * tell the truth.
 */
module Crash {
  import opened Text
  import opened Tables
  import opened SessionSpec
  import opened SessionEffects
  import opened Interleaving
  import opened Concurrency

  // ---------------------------------------------------------------- users and their events

  function UserKeys(users: seq<User>): seq<Key> {
    if users == [] then [] else [Key(users[0].tenantId, users[0].id)] + UserKeys(users[1..])
  }

  /** The users the outbox says were created, in order. */
  function CreatedKeys(outbox: seq<OutboxRow>): seq<Key> {
    if outbox == [] then []
    else (if outbox[0].event.UserCreated? then [Key(outbox[0].tenantId, outbox[0].event.userId)] else [])
         + CreatedKeys(outbox[1..])
  }

  lemma {:induction false} UserKeysAppend(users: seq<User>, u: User)
    ensures UserKeys(users + [u]) == UserKeys(users) + [Key(u.tenantId, u.id)]
  {
    if users == [] {
      assert users + [u] == [u];
    } else {
      assert (users + [u])[1..] == users[1..] + [u];
      UserKeysAppend(users[1..], u);
    }
  }

  lemma {:induction false} CreatedKeysAppend(outbox: seq<OutboxRow>, r: OutboxRow)
    ensures CreatedKeys(outbox + [r])
         == CreatedKeys(outbox) + (if r.event.UserCreated? then [Key(r.tenantId, r.event.userId)] else [])
  {
    if outbox == [] {
      assert outbox + [r] == [r];
    } else {
      assert (outbox + [r])[0] == outbox[0] && (outbox + [r])[1..] == outbox[1..] + [r];
      CreatedKeysAppend(outbox[1..], r);
      var head := if outbox[0].event.UserCreated? then [Key(outbox[0].tenantId, outbox[0].event.userId)] else [];
      assert CreatedKeys(outbox + [r]) == head + CreatedKeys(outbox[1..] + [r]);
    }
  }

  lemma {:induction false} MigrateKeepsKeys(users: seq<User>, t: string, id: string, h: PasswordHash)
    ensures UserKeys(MigrateUser(users, t, id, h)) == UserKeys(users)
  {
    if users != [] {
      assert MigrateUser(users, t, id, h)[1..] == MigrateUser(users[1..], t, id, h);
      MigrateKeepsKeys(users[1..], t, id, h);
    }
  }

  lemma {:induction false} AbsentKey(users: seq<User>, t: string, id: string)
    ensures UserById(users, t, id).None? <==> Key(t, id) !in UserKeys(users)
  {
    if users != [] {
      AbsentKey(users[1..], t, id);
      assert UserKeys(users)[0] == Key(users[0].tenantId, users[0].id);
    }
  }

  predicate Unrepeated(ks: seq<Key>) {
    forall i, j :: 0 <= i < j < |ks| ==> ks[i] != ks[j]
  }

  /** Every user has exactly one `UserCreated` event, in the order of registration, and there are no others. */
  predicate UsersReported(s: Store) {
    CreatedKeys(s.outbox) == UserKeys(s.users) && Unrepeated(UserKeys(s.users))
  }

  /** The outbox row the next database call of this process writes, if it writes one. */
  function Emits(s: Store, c: Call, pc: Pc): Option<OutboxRow>
    requires Fits(c, pc)
  {
    match pc
    case AtLogin(l) =>
      if l.ReportOpened?
      then Some(OutboxRow(c.tenantId, SessionCreated(l.who.userId, c.env.sessionId, c.env.origin, c.env.dpop.Proof?)))
      else None
    case AtClose(x) =>
      (match x
       case ReportRows(u, _) => Some(OutboxRow(c.tenantId, AllSessionsRevoked(u)))
       case ReportHijack(u, sid) => Some(OutboxRow(c.tenantId, SessionHijackDetected(u, sid, c.env.origin)))
       case ReportNamed(sid) => Some(OutboxRow(c.tenantId, SessionRevoked(sid)))
       case _ => None)
    case AtUser(AddUser(u)) =>
      if UserAdmitted(s.users, u) then Some(OutboxRow(u.tenantId, UserCreated(u.id, u.email, u.username))) else None
    case AtUser(ReportMigration(u)) => Some(OutboxRow(u.tenantId, UserMigrated(u.id, u.email, u.username)))
    case _ => None
  }

  function Plus(outbox: seq<OutboxRow>, r: Option<OutboxRow>): seq<OutboxRow> {
    if r.Some? then outbox + [r.value] else outbox
  }

  lemma OthersKeepUsers(s: Store, c: Call, pc: Pc)
    requires Fits(c, pc) && !pc.AtUser?
    ensures Advance(s, c, pc).store.users == s.users
  {
  }

  lemma AdvanceOutbox(s: Store, c: Call, pc: Pc)
    requires Fits(c, pc)
    ensures Advance(s, c, pc).store.outbox == Plus(s.outbox, Emits(s, c, pc))
  {
  }

  /** The key of the user the next database call of this process inserts. */
  function Inserts(s: Store, pc: Pc): seq<Key> {
    if pc.AtUser? && pc.user.AddUser? && UserAdmitted(s.users, pc.user.user)
    then [Key(pc.user.user.tenantId, pc.user.user.id)] else []
  }

  lemma UserUsers(s: Store, c: Call, pc: UserPc)
    requires UserFits(c, pc)
    ensures UserKeys(StepUser(s, c, pc).store.users) == UserKeys(s.users) + Inserts(s, AtUser(pc))
  {
    match pc
    case AddUser(u) => UserKeysAppend(s.users, u);
    case SaveMigration(u) => MigrateKeepsKeys(s.users, u.tenantId, u.id, Argon2(c.password, c.salt));
    case _ =>
  }

  lemma AdvanceUsers(s: Store, c: Call, pc: Pc)
    requires Fits(c, pc)
    ensures UserKeys(Advance(s, c, pc).store.users) == UserKeys(s.users) + Inserts(s, pc)
  {
    if pc.AtUser? {
      UserUsers(s, c, pc.user);
    } else {
      OthersKeepUsers(s, c, pc);
    }
  }

  /** A database call reports a user as created exactly when it inserts that user. */
  lemma ReportsInserted(s: Store, c: Call, pc: Pc)
    requires Fits(c, pc)
    ensures Inserts(s, pc)
         == if Emits(s, c, pc).Some? && Emits(s, c, pc).value.event.UserCreated?
            then [Key(Emits(s, c, pc).value.tenantId, Emits(s, c, pc).value.event.userId)] else []
  {
  }

  lemma InsertsFresh(s: Store, pc: Pc)
    requires Unrepeated(UserKeys(s.users))
    ensures Unrepeated(UserKeys(s.users) + Inserts(s, pc))
  {
    if pc.AtUser? && pc.user.AddUser? {
      AbsentKey(s.users, pc.user.user.tenantId, pc.user.user.id);
    }
  }

  /** The registration transaction writes one user and its event; every other database call writes neither. */
  lemma AdvanceReported(s: Store, c: Call, pc: Pc)
    requires Fits(c, pc) && UsersReported(s)
    ensures UsersReported(Advance(s, c, pc).store)
  {
    AdvanceOutbox(s, c, pc);
    AdvanceUsers(s, c, pc);
    ReportsInserted(s, c, pc);
    InsertsFresh(s, pc);
    var r := Emits(s, c, pc);
    if r.Some? {
      CreatedKeysAppend(s.outbox, r.value);
    }
  }

  // ---------------------------------------------------------------- session events

  /** The event is true of the session table. */
  predicate True(r: OutboxRow, m: map<Key, Session>) {
    match r.event
    case SessionCreated(u, sid, _, _) => Key(r.tenantId, sid) in m && m[Key(r.tenantId, sid)].userId == u
    case SessionHijackDetected(u, sid, _) => Closed(m, Key(r.tenantId, sid))
    case SessionRevoked(sid) => Closed(m, Key(r.tenantId, sid))
    case _ => true
  }

  predicate Closed(m: map<Key, Session>, k: Key) {
    k in m && m[k].revokedAt.Some?
  }

  predicate EventsTrue(s: Store) {
    forall r :: r in s.outbox ==> True(r, s.sessions)
  }

  /** What a call has already made true of the session table by the time it is at `pc`. */
  predicate Underway(c: Call, pc: Pc, m: map<Key, Session>)
    requires Fits(c, pc)
  {
    match pc
    case AtLogin(l) =>
      l.AddFirstAccess? || l.AuditFirstAccess? || l.SignFirst? || l.ReportOpened? ==>
        Key(c.tenantId, c.env.sessionId) in m && m[Key(c.tenantId, c.env.sessionId)].userId == l.who.userId
    case AtClose(x) =>
      (match x
       case CloseRows(_, after) => after.ThenReport? ==> Closed(m, Key(c.tenantId, after.sid))
       case ReportRows(_, after) => after.ThenReport? ==> Closed(m, Key(c.tenantId, after.sid))
       case ReportHijack(_, sid) => Closed(m, Key(c.tenantId, sid))
       case ReportNamed(sid) => Closed(m, Key(c.tenantId, sid))
       case _ => true)
    case _ => true
  }

  lemma CloseUnderway(s: Store, c: Call, pc: ClosePc)
    requires CloseFits(c, pc) && Underway(c, AtClose(pc), s.sessions)
    ensures Underway(c, StepClose(s, c, pc).pc, StepClose(s, c, pc).store.sessions)
  {
  }

  lemma OtherUnderway(s: Store, c: Call, pc: Pc)
    requires Fits(c, pc) && (pc.AtAccess? || pc.AtConsent? || pc.AtUser? || pc.Finished?)
    ensures Underway(c, Advance(s, c, pc).pc, Advance(s, c, pc).store.sessions)
  {
  }

  /** What a call has made true before a database call, together with that call, makes true what comes after. */
  lemma AdvanceUnderway(s: Store, c: Call, pc: Pc)
    requires Fits(c, pc) && Underway(c, pc, s.sessions)
    ensures Underway(c, Advance(s, c, pc).pc, Advance(s, c, pc).store.sessions)
  {
    match pc
    case AtLogin(_) =>
    case AtRefresh(_) =>
    case AtClose(x) => CloseUnderway(s, c, x);
    case _ => OtherUnderway(s, c, pc);
  }

  /** Any event one database call writes is true when it is written, and the others stay true. */
  lemma AdvanceTrue(s: Store, c: Call, pc: Pc)
    requires Fits(c, pc) && EventsTrue(s) && Underway(c, pc, s.sessions)
    ensures EventsTrue(Advance(s, c, pc).store)
  {
    AdvanceOutbox(s, c, pc);
    AdvanceGrows(s, c, pc);
  }

  ghost predicate Consistent(c: Config)
    requires Valid(c)
  {
    && UsersReported(c.store)
    && EventsTrue(c.store)
    && (forall i :: 0 <= i < |c.procs| ==> Underway(c.procs[i].call, c.procs[i].pc, c.store.sessions))
  }

  /** What others have made true stays true through a database call. */
  lemma OthersUnderway(s: Store, c: Call, pc: Pc, c': Call, pc': Pc)
    requires Fits(c, pc) && Fits(c', pc') && Underway(c', pc', s.sessions)
    ensures Underway(c', pc', Advance(s, c, pc).store.sessions)
  {
    AdvanceGrows(s, c, pc);
  }

  lemma Act1Consistent(c: Config, a: Act)
    requires Valid(c) && Consistent(c)
    ensures Consistent(Act1(c, a))
  {
    match a
    case Begin(_) =>
    case Resume(i) =>
      if i < |c.procs| {
        var p := c.procs[i];
        AdvanceReported(c.store, p.call, p.pc);
        AdvanceTrue(c.store, p.call, p.pc);
        AdvanceUnderway(c.store, p.call, p.pc);
        forall j | 0 <= j < |c.procs| && j != i
          ensures Underway(c.procs[j].call, c.procs[j].pc, Act1(c, a).store.sessions)
        {
          OthersUnderway(c.store, p.call, p.pc, c.procs[j].call, c.procs[j].pc);
        }
      }
  }

  lemma {:induction false} ExecConsistent(c: Config, acts: seq<Act>)
    requires Valid(c) && Consistent(c)
    ensures Consistent(Exec(c, acts))
    decreases acts
  {
    if acts != [] {
      Act1Consistent(c, acts[0]);
      ExecConsistent(Act1(c, acts[0]), acts[1..]);
    }
  }

  /**
   * From empty tables, after every schedule, with calls left unfinished at any point: users and `UserCreated` events
   * are one to one, every `SessionCreated` event names an existing session of its user, and every
   * `SessionHijackDetected` or `SessionRevoked` event names a revoked session.
   */
  lemma CrashConsistent(clients: set<Key>, acts: seq<Act>)
    ensures var s := Exec(Config(Store([], [], map[], {}, [], [], [], clients), []), acts).store;
            UsersReported(s) && EventsTrue(s)
  {
    ExecConsistent(Config(Store([], [], map[], {}, [], [], [], clients), []), acts);
  }
}
