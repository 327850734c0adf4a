/**
 * Tenant isolation under interleaving: delete every other tenant's rows, calls and database calls from a schedule, and
 * a tenant's rows, and how far each of its calls has come, are the same.
 */
module TenantSchedules {
  import opened Text
  import opened Tables
  import opened SessionSpec
  import opened Interleaving
  import opened Concurrency
  import opened Tenants

  /** A call that works on an account it read or made works on one of its own tenant. */
  predicate Local(c: Call, pc: Pc) {
    match pc
    case AtUser(CheckEmail(u)) => u.tenantId == c.tenantId
    case AtUser(CheckName(u)) => u.tenantId == c.tenantId
    case AtUser(AddUser(u)) => u.tenantId == c.tenantId
    case AtUser(SaveMigration(u)) => u.tenantId == c.tenantId
    case AtUser(ReportMigration(u)) => u.tenantId == c.tenantId
    case _ => true
  }

  lemma AdvanceLocal(s: Store, c: Call, pc: Pc)
    requires Fits(c, pc) && Local(c, pc)
    ensures Local(c, Advance(s, c, pc).pc)
  {
  }

  // ---------------------------------------------------------------- one database call

  /** What tenant `v` sees of a database call. */
  function SeenNext(n: Next, v: string): Next {
    Next(Of(n.store, v), n.pc)
  }

  /** A database call of tenant `v` works on its rows alone; one of another tenant changes none of them. */
  predicate Isolated(s: Store, c: Call, mine: Next, all: Next, v: string) {
    SeenNext(all, v) == if c.tenantId == v then mine else Next(Of(s, v), all.pc)
  }

  lemma DevicesReplacedOf(s: Store, devices: seq<Device>, v: string)
    ensures Of(s.(devices := devices), v) == Of(s, v).(devices := Keep(devices, DeviceOf(v)))
  {
  }

  lemma AccessAddedOf(s: Store, a: Access, v: string)
    ensures Of(s.(accesses := s.accesses + {a}), v)
         == if a.tenantId == v then Of(s, v).(accesses := Of(s, v).accesses + {a}) else Of(s, v)
  {
    var kept := set x | x in s.accesses + {a} && x.tenantId == v;
    assert kept == Of(s, v).accesses + (if a.tenantId == v then {a} else {});
  }

  lemma AuditAddedOf(s: Store, x: Audit, v: string)
    ensures Of(s.(audits := s.audits + [x]), v)
         == if x.tenantId == v then Of(s, v).(audits := Of(s, v).audits + [x]) else Of(s, v)
  {
    KeepAppend(s.audits, x, AuditOf(v));
  }

  lemma AdmittedOf(s: Store, t: string, u: string, client: Option<string>, e: Env)
    ensures SessionAdmitted(Of(s, t), t, u, client, e) == SessionAdmitted(s, t, u, client, e)
  {
    IdSeen(s.users, t, u);
  }

  lemma AddDeviceOf(s: Store, c: Call, who: Subject, f: string, v: string)
    requires c.Login? || c.CreateSession?
    ensures Isolated(s, c, StepLogin(Of(s, v), c, AddDevice(who, f)), StepLogin(s, c, AddDevice(who, f)), v)
  {
    var d := NewDevice(c.tenantId, who.userId, f, c.env);
    DevicesSeen(s.devices, c.tenantId, c.env.deviceId, f);
    IdSeen(s.users, c.tenantId, who.userId);
    KeepAppend(s.devices, d, DeviceOf(v));
    DevicesReplacedOf(s, s.devices + [d], v);
  }

  lemma UpdateDeviceOf(s: Store, c: Call, who: Subject, id: string, jwk: string, v: string)
    requires c.Login? || c.CreateSession?
    ensures Isolated(s, c, StepLogin(Of(s, v), c, UpdateDevice(who, id, jwk)),
                     StepLogin(s, c, UpdateDevice(who, id, jwk)), v)
  {
    RekeyDeviceOf(s.devices, c.tenantId, id, jwk, c.env.now, v);
    DevicesReplacedOf(s, RekeyDevice(s.devices, c.tenantId, id, jwk, c.env.now), v);
  }

  lemma InsertCallOf(s: Store, c: Call, pc: LoginPc, v: string)
    requires LoginFits(c, pc) && (pc.AddSession? || pc.AddFirstAccess? || pc.AuditFirstAccess?)
    ensures Isolated(s, c, StepLogin(Of(s, v), c, pc), StepLogin(s, c, pc), v)
  {
    var t, e := c.tenantId, c.env;
    match pc
    case AddSession(who, d) =>
      AdmittedOf(s, t, who.userId, Truthy(c.clientId), e);
      InsertSessionOf(s, t, who.userId, d, Truthy(c.clientId), e, v);
    case AddFirstAccess(_, cl) => AccessAddedOf(s, Access(t, e.sessionId, cl), v);
    case AuditFirstAccess(who, cl) =>
      AuditAddedOf(s, SsoProductAccess(t, who.userId, Access(t, e.sessionId, cl)), v);
  }

  lemma LoginCallOf(s: Store, c: Call, pc: LoginPc, v: string)
    requires LoginFits(c, pc)
    ensures Isolated(s, c, StepLogin(Of(s, v), c, pc), StepLogin(s, c, pc), v)
  {
    var t, e := c.tenantId, c.env;
    match pc
    case FindLogin => FirstSeen(s.users, t, c.identifier);
    case LogFailure(_) => LogAttemptOf(s, t, c.identifier, false, e, v);
    case LogSuccess(_) => LogAttemptOf(s, t, c.identifier, true, e, v);
    case FindDevice(who, f) => DevicesSeen(s.devices, t, who.userId, f);
    case AddDevice(who, f) => AddDeviceOf(s, c, who, f, v);
    case UpdateDevice(who, id, jwk) => UpdateDeviceOf(s, c, who, id, jwk, v);
    case SignFirst(_) =>
    case ReportOpened(who, _) =>
      AppendEventOf(s, t, SessionCreated(who.userId, e.sessionId, e.origin, e.dpop.Proof?), v);
    case _ => InsertCallOf(s, c, pc, v);
  }

  lemma RefreshCallOf(s: Store, c: Call, pc: RefreshPc, v: string)
    requires c.Refresh?
    ensures Isolated(s, c, StepRefresh(Of(s, v), c, pc), StepRefresh(s, c, pc), v)
  {
    var k := Key(c.tenantId, pc.sid);
    if k in s.sessions {
      match pc
      case ReadSession(_, _) => IdSeen(s.users, c.tenantId, s.sessions[k].userId);
      case CloseReused(_, _) => CloseSessionOf(s, k, c.env.now, v);
      case WriteHash(_, _) => RotateSessionOf(s, k, c.env, v);
      case SignNext(_, _) =>
    }
  }

  lemma AccessCallOf(s: Store, c: Call, pc: AccessPc, v: string)
    requires pc.next.ThenSign? ==> c.Refresh?
    ensures Isolated(s, c, StepAccess(Of(s, v), c, pc), StepAccess(s, c, pc), v)
  {
    var a := Access(c.tenantId, pc.sid, pc.client);
    AccessAddedOf(s, a, v);
    AuditAddedOf(s, SsoProductAccess(c.tenantId, pc.who.userId, a), v);
  }

  lemma CloseCallOf(s: Store, c: Call, pc: ClosePc, v: string)
    requires CloseFits(c, pc)
    ensures Isolated(s, c, StepClose(Of(s, v), c, pc), StepClose(s, c, pc), v)
  {
    var t, now := c.tenantId, ClosingTime(c);
    match pc
    case CloseRows(u, _) =>
      CloseUserRowsOf(s.sessions, t, u, now, v);
    case ReportRows(u, _) => AppendEventOf(s, t, AllSessionsRevoked(u), v);
    case ReportHijack(u, sid) => AppendEventOf(s, t, SessionHijackDetected(u, sid, c.env.origin), v);
    case ReadOwner =>
    case CloseNamed(sid) =>
      if Key(t, sid) in s.sessions {
        CloseSessionOf(s, Key(t, sid), now, v);
      }
    case ReportNamed(sid) => AppendEventOf(s, t, SessionRevoked(sid), v);
  }

  lemma AdmittedUserOf(users: seq<User>, u: User)
    ensures UserAdmitted(Keep(users, UserOf(u.tenantId)), u) == UserAdmitted(users, u)
  {
    IdSeen(users, u.tenantId, u.id);
    if u.email.Some? {
      EmailSeen(users, u.tenantId, u.email.value);
    }
    if u.username.Some? {
      NameSeen(users, u.tenantId, u.username.value);
    }
  }

  lemma NewUserCheckOf(s: Store, c: Call, pc: UserPc, v: string)
    requires (pc.CheckEmail? || pc.CheckName?) && Local(c, AtUser(pc))
    ensures Isolated(s, c, StepUser(Of(s, v), c, pc), StepUser(s, c, pc), v)
  {
    var u := pc.user;
    if pc.CheckEmail? && u.email.Some? {
      EmailSeen(s.users, u.tenantId, u.email.value);
    } else if pc.CheckName? && u.username.Some? {
      NameSeen(s.users, u.tenantId, u.username.value);
    }
  }

  lemma FindVerifyOf(s: Store, c: Call, v: string)
    requires c.Verify?
    ensures Isolated(s, c, StepUser(Of(s, v), c, FindVerify), StepUser(s, c, FindVerify), v)
  {
    FirstSeen(s.users, c.tenantId, c.identifier);
  }

  lemma UserCallOf(s: Store, c: Call, pc: UserPc, v: string)
    requires UserFits(c, pc) && Local(c, AtUser(pc))
    ensures Isolated(s, c, StepUser(Of(s, v), c, pc), StepUser(s, c, pc), v)
  {
    match pc
    case AddUser(u) =>
      AdmittedUserOf(s.users, u);
      InsertUserOf(s, u, v);
    case SaveMigration(u) =>
      var h := Argon2(c.password, c.salt);
      MigrateUserOf(s.users, u.tenantId, u.id, h, v);
    case ReportMigration(u) => AppendEventOf(s, u.tenantId, UserMigrated(u.id, u.email, u.username), v);
    case FindVerify => FindVerifyOf(s, c, v);
    case _ => NewUserCheckOf(s, c, pc, v);
  }

  lemma AdvanceOf(s: Store, c: Call, pc: Pc, v: string)
    requires Fits(c, pc) && Local(c, pc)
    ensures Isolated(s, c, Advance(Of(s, v), c, pc), Advance(s, c, pc), v)
  {
    match pc
    case AtLogin(l) => LoginCallOf(s, c, l, v);
    case AtRefresh(f) => RefreshCallOf(s, c, f, v);
    case AtAccess(a) => AccessCallOf(s, c, a, v);
    case AtClose(x) => CloseCallOf(s, c, x, v);
    case AtUser(u) => UserCallOf(s, c, u, v);
    case AtConsent =>
    case Finished(_) =>
  }

  // ---------------------------------------------------------------- schedules

  function ProcOf(v: string): Proc -> bool { (p: Proc) => p.call.tenantId == v }

  /** The tenant's rows, and its calls in progress. */
  function Side(c: Config, v: string): Config {
    Config(Of(c.store, v), Keep(c.procs, ProcOf(v)))
  }

  /** The number a call of the tenant has among the tenant's own. */
  function OwnNumber(procs: seq<Proc>, i: nat, v: string): nat
    requires i <= |procs|
  {
    |Keep(procs[..i], ProcOf(v))|
  }

  lemma {:induction false} KeepAll(procs: seq<Proc>, v: string)
    ensures forall p :: p in Keep(procs, ProcOf(v)) ==> p in procs && p.call.tenantId == v
  {
    if procs != [] {
      KeepAll(procs[1..], v);
    }
  }

  lemma {:induction false} KeepUpdate(procs: seq<Proc>, i: nat, p: Proc, v: string)
    requires i < |procs| && p.call.tenantId == procs[i].call.tenantId
    ensures procs[i].call.tenantId == v ==>
              && OwnNumber(procs, i, v) < |Keep(procs, ProcOf(v))|
              && Keep(procs, ProcOf(v))[OwnNumber(procs, i, v)] == procs[i]
              && Keep(procs[i := p], ProcOf(v)) == Keep(procs, ProcOf(v))[OwnNumber(procs, i, v) := p]
    ensures procs[i].call.tenantId != v ==> Keep(procs[i := p], ProcOf(v)) == Keep(procs, ProcOf(v))
  {
    if i > 0 {
      assert procs[i := p][1..] == procs[1..][i - 1 := p];
      assert procs[..i][1..] == procs[1..][..i - 1];
      KeepUpdate(procs[1..], i - 1, p, v);
    } else {
      assert procs[i := p][1..] == procs[1..] && procs[..0] == [];
    }
  }

  ghost predicate AllLocal(c: Config) {
    forall i :: 0 <= i < |c.procs| ==> Local(c.procs[i].call, c.procs[i].pc)
  }

  /** The act as the tenant alone would make it, if it is one of the tenant's. */
  function ActOf(c: Config, a: Act, v: string): seq<Act> {
    match a
    case Begin(call) => if call.tenantId == v then [a] else []
    case Resume(i) =>
      if i < |c.procs| && c.procs[i].call.tenantId == v then [Resume(OwnNumber(c.procs, i, v))] else []
  }

  function ActsOf(c: Config, acts: seq<Act>, v: string): seq<Act>
    requires Valid(c)
    decreases acts
  {
    if acts == [] then [] else ActOf(c, acts[0], v) + ActsOf(Act1(c, acts[0]), acts[1..], v)
  }

  lemma SideValid(c: Config, v: string)
    requires Valid(c)
    ensures Valid(Side(c, v))
  {
    KeepAll(c.procs, v);
    assert forall p :: p in c.procs ==> Fits(p.call, p.pc);
    assert forall i :: 0 <= i < |Side(c, v).procs| ==> Side(c, v).procs[i] in c.procs;
  }

  lemma ResumeOf(c: Config, i: nat, v: string)
    requires Valid(c) && AllLocal(c) && i < |c.procs|
    ensures Valid(Side(c, v))
    ensures Side(Act1(c, Resume(i)), v) == Exec(Side(c, v), ActOf(c, Resume(i), v))
  {
    SideValid(c, v);
    var p := c.procs[i];
    var n := Advance(c.store, p.call, p.pc);
    AdvanceOf(c.store, p.call, p.pc, v);
    KeepUpdate(c.procs, i, p.(pc := n.pc), v);
  }

  lemma Act1Of(c: Config, a: Act, v: string)
    requires Valid(c) && AllLocal(c)
    ensures Valid(Side(c, v)) && AllLocal(Act1(c, a))
    ensures Side(Act1(c, a), v) == Exec(Side(c, v), ActOf(c, a, v))
  {
    SideValid(c, v);
    match a
    case Begin(call) =>
      KeepAppend(c.procs, Proc(call, Start(call)), ProcOf(v));
    case Resume(i) =>
      if i < |c.procs| {
        AdvanceLocal(c.store, c.procs[i].call, c.procs[i].pc);
        ResumeOf(c, i, v);
      }
  }

  /**
   * Non-interference under every schedule: a tenant's rows, and the calls it has in progress or finished with their
   * replies, are those of the schedule from which every other tenant's acts and rows were deleted.
   */
  lemma {:induction false} ScheduleNonInterference(c: Config, acts: seq<Act>, v: string)
    requires Valid(c) && AllLocal(c)
    ensures Valid(Side(c, v)) && Side(Exec(c, acts), v) == Exec(Side(c, v), ActsOf(c, acts, v))
    decreases acts
  {
    SideValid(c, v);
    if acts != [] {
      var c' := Act1(c, acts[0]);
      Act1Of(c, acts[0], v);
      ScheduleNonInterference(c', acts[1..], v);
      ExecAppend(Side(c, v), ActOf(c, acts[0], v), ActsOf(c', acts[1..], v));
    }
  }
}
