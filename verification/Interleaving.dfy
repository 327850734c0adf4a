/**
 * The interleaved model: service calls in progress at the same time, one database call per step. A schedule
 * starts calls and runs them in any order; a call that a schedule never runs again has crashed.
 */
module Interleaving {
  import opened Text
  import opened Tables
  import opened SessionSpec
  import opened SessionEffects

  /** The account a call acts for, as it was when the call read it. */
  datatype Subject = Subject(userId: string, email: Option<string>, username: Option<string>)

  /** Where a login is: about to make the database call named. */
  datatype LoginPc =
    | FindLogin
    | LogFailure(error: Error)
    | LogSuccess(user: User)
    | FindDevice(who: Subject, fingerprint: string)
    | AddDevice(who: Subject, fingerprint: string)
    | UpdateDevice(who: Subject, deviceId: string, jwk: string)
    | AddSession(who: Subject, device: Option<string>)
    | AddFirstAccess(who: Subject, client: string)
    | AuditFirstAccess(who: Subject, client: string)
    | SignFirst(who: Subject)
    | ReportOpened(who: Subject, kid: string)

  datatype RefreshPc =
    | ReadSession(sid: string, val: string)
    | CloseReused(sid: string, userId: string)
    | WriteHash(sid: string, who: Subject)
    | SignNext(sid: string, who: Subject)

  /** What follows once a product access is on record. */
  datatype AfterAccess = ThenSign | ThenDone

  datatype AccessPc =
    | FindAccess(sid: string, who: Subject, client: string, next: AfterAccess)
    | AddAccess(sid: string, who: Subject, client: string, next: AfterAccess)
    | AuditAccess(sid: string, who: Subject, client: string, next: AfterAccess)

  /** What follows once a user's sessions are closed. */
  datatype AfterClose = ThenReply(r: Reply) | ThenReport(sid: string)

  datatype ClosePc =
    | CloseRows(userId: string, after: AfterClose)
    | ReportRows(userId: string, after: AfterClose)
    | ReportHijack(userId: string, sid: string)
    | ReadOwner
    | CloseNamed(sid: string)
    | ReportNamed(sid: string)

  datatype UserPc =
    | CheckEmail(user: User)
    | CheckName(user: User)
    | AddUser(user: User)
    | FindVerify
    | SaveMigration(user: User)
    | ReportMigration(user: User)

  datatype Pc =
    | AtLogin(login: LoginPc)
    | AtRefresh(refresh: RefreshPc)
    | AtAccess(access: AccessPc)
    | AtClose(close: ClosePc)
    | AtUser(user: UserPc)
    | AtConsent
    | Finished(reply: Reply)

  datatype Proc = Proc(call: Call, pc: Pc)

  predicate LoginFits(c: Call, pc: LoginPc) {
    (c.Login? || c.CreateSession?) && (pc.FindLogin? || pc.LogFailure? || pc.LogSuccess? ==> c.Login?)
  }

  predicate CloseFits(c: Call, pc: ClosePc) {
    && (c.Refresh? || c.Revoke? || c.RevokeOne? || c.RevokeAll?)
    && (pc.ReadOwner? ==> c.RevokeOne?)
    && (pc.ReportHijack? || (pc.CloseRows? && pc.after.ThenReport?) || (pc.ReportRows? && pc.after.ThenReport?)
        ==> c.Refresh?)
  }

  predicate UserFits(c: Call, pc: UserPc) {
    pc.FindVerify? || pc.SaveMigration? ==> c.Verify?
  }

  /** The program counter is one the call's own code can be at. */
  predicate Fits(c: Call, pc: Pc) {
    match pc
    case AtLogin(l) => LoginFits(c, l)
    case AtRefresh(_) => c.Refresh?
    case AtAccess(a) => a.next.ThenSign? ==> c.Refresh?
    case AtClose(x) => CloseFits(c, x)
    case AtUser(u) => UserFits(c, u)
    case AtConsent => c.Consent?
    case Finished(_) => true
  }

  datatype Next = Next(store: Store, pc: Pc)

  // ---------------------------------------------------------------- code between database calls

  /** Everything a call does before its first database call. */
  function Start(c: Call): (pc: Pc)
    ensures Fits(c, pc)
  {
    match c
    case Login(_, _, _, _, _, _) => AtLogin(FindLogin)
    case CreateSession(_, u, em, n, _, e) => AfterCredentials(Subject(u, em, n), None, e)
    case Refresh(_, token, _, _) =>
      (match ParseToken(token)
       case None => Finished(Failed(BadTokenFormat))
       case Some((sid, val)) => AtRefresh(ReadSession(sid, val)))
    case Consent(_, _, _, _) => AtConsent
    case Revoke(_, token, _) =>
      (match ParseToken(token)
       case None => Finished(Failed(BadTokenFormat))
       case Some((sid, _)) => AtClose(CloseNamed(sid)))
    case RevokeOne(_, _, _, _) => AtClose(ReadOwner)
    case RevokeAll(_, u, _) => AtClose(CloseRows(u, ThenReply(Success)))
    case Register(t, em, p, n, id, salt) => AfterForm(NewUser(t, em, p, n, id, salt))
    case Verify(_, _, _, _) => AtUser(FindVerify)
  }

  function AfterForm(u: User): Pc {
    if Truthy(u.email).Some? then AtUser(CheckEmail(u)) else AfterEmail(u)
  }

  function AfterEmail(u: User): Pc {
    if Truthy(u.username).Some? then AtUser(CheckName(u)) else AtUser(AddUser(u))
  }

  /** `issueTokensAndSession` up to its first database call: the proof check, then the device if there is one. */
  function AfterCredentials(who: Subject, fingerprint: Option<string>, e: Env): Pc {
    if e.dpop.BadProof? then Finished(Failed(DpopFailed))
    else match Truthy(fingerprint)
         case None => AtLogin(AddSession(who, None))
         case Some(f) => AtLogin(FindDevice(who, f))
  }

  function AfterClosed(userId: string, after: AfterClose): Pc {
    match after
    case ThenReply(r) => Finished(r)
    case ThenReport(sid) => AtClose(ReportHijack(userId, sid))
  }

  function AfterRecorded(sid: string, who: Subject, next: AfterAccess): Pc {
    if next.ThenDone? then Finished(Success) else AtRefresh(SignNext(sid, who))
  }

  /** The e-mail and name that `include: { user: true }` brings along with a session row. */
  function OwnerOf(s: Store, t: string, userId: string): Subject {
    match UserById(s.users, t, userId)
    case Some(u) => Subject(userId, u.email, u.username)
    case None => Subject(userId, None, None)
  }

  // ---------------------------------------------------------------- one database call

  function StepLogin(s: Store, c: Call, pc: LoginPc): (r: Next)
    requires LoginFits(c, pc)
    ensures Fits(c, r.pc)
  {
    var t, e := c.tenantId, c.env;
    match pc
    case FindLogin =>
      (match FirstUser(s.users, t, c.identifier)
       case None => Next(s, AtLogin(LogFailure(InvalidCredentials)))
       case Some(u) =>
         match CredentialError(u, c.password)
         case Some(err) => Next(s, AtLogin(LogFailure(err)))
         case None => Next(s, AtLogin(LogSuccess(u))))
    case LogFailure(err) => Next(LogAttempt(s, t, c.identifier, false, e), Finished(Failed(err)))
    case LogSuccess(u) =>
      Next(LogAttempt(s, t, c.identifier, true, e),
           AfterCredentials(Subject(u.id, u.email, u.username), c.fingerprint, e))
    case FindDevice(who, f) =>
      (match FirstDevice(s.devices, t, who.userId, f)
       case None => Next(s, AtLogin(AddDevice(who, f)))
       case Some(d) =>
         if e.dpop.Proof? then Next(s, AtLogin(UpdateDevice(who, d.id, e.dpop.jwk)))
         else Next(s, AtLogin(AddSession(who, Some(d.id)))))
    case AddDevice(who, f) =>
      if DeviceKnown(s.devices, t, e.deviceId) || UserById(s.users, t, who.userId).None?
      then Next(s, Finished(Failed(ConstraintViolation)))
      else Next(s.(devices := s.devices + [NewDevice(t, who.userId, f, e)]),
                AtLogin(AddSession(who, Some(e.deviceId))))
    case UpdateDevice(who, id, jwk) =>
      Next(s.(devices := RekeyDevice(s.devices, t, id, jwk, e.now)), AtLogin(AddSession(who, Some(id))))
    case AddSession(who, d) =>
      var client := Truthy(c.clientId);
      if !SessionAdmitted(s, t, who.userId, client, e) then Next(s, Finished(Failed(ConstraintViolation)))
      else Next(InsertSession(s, t, who.userId, d, client, e),
                if client.Some? then AtLogin(AddFirstAccess(who, client.value)) else AtLogin(SignFirst(who)))
    case AddFirstAccess(who, cl) =>
      if Access(t, e.sessionId, cl) in s.accesses then Next(s, Finished(Failed(ConstraintViolation)))
      else Next(s.(accesses := s.accesses + {Access(t, e.sessionId, cl)}), AtLogin(AuditFirstAccess(who, cl)))
    case AuditFirstAccess(who, cl) =>
      Next(s.(audits := s.audits + [SsoProductAccess(t, who.userId, Access(t, e.sessionId, cl))]),
           AtLogin(SignFirst(who)))
    case SignFirst(who) =>
      (match e.signing
       case SigningFails => Next(s, Finished(Failed(SigningFailed(who.userId))))
       case Signs(kid) => Next(s, AtLogin(ReportOpened(who, kid))))
    case ReportOpened(who, kid) =>
      Next(AppendEvent(s, t, SessionCreated(who.userId, e.sessionId, e.origin, e.dpop.Proof?)),
           Finished(Tokens(AccessToken(kid, who.userId, t, who.email, who.username, Thumbprint(e.dpop)),
                           TokenText(e.sessionId, e.tokenValue))))
  }

  function StepRefresh(s: Store, c: Call, pc: RefreshPc): (r: Next)
    requires c.Refresh?
    ensures Fits(c, r.pc)
  {
    var t, e := c.tenantId, c.env;
    match pc
    case ReadSession(sid, val) =>
      var k := Key(t, sid);
      if k !in s.sessions then Next(s, Finished(Failed(UnknownSession)))
      else
        var row := s.sessions[k];
        if row.revokedAt.Some? then Next(s, AtClose(CloseRows(row.userId, ThenReply(Failed(RevokedSession)))))
        else if row.refreshVerHash != Sha256(val) then Next(s, AtRefresh(CloseReused(sid, row.userId)))
        else if e.dpop.BadProof? then Next(s, Finished(Failed(DpopFailed)))
        else Next(s, AtRefresh(WriteHash(sid, OwnerOf(s, t, row.userId))))
    case CloseReused(sid, u) =>
      if Key(t, sid) !in s.sessions then Next(s, Finished(Failed(RecordNotFound)))
      else Next(CloseSession(s, Key(t, sid), e.now), AtClose(CloseRows(u, ThenReport(sid))))
    case WriteHash(sid, who) =>
      if Key(t, sid) !in s.sessions then Next(s, Finished(Failed(RecordNotFound)))
      else Next(RotateSession(s, Key(t, sid), e),
                match Truthy(c.clientId)
                case None => AtRefresh(SignNext(sid, who))
                case Some(cl) => AtAccess(FindAccess(sid, who, cl, ThenSign)))
    case SignNext(sid, who) =>
      (match e.signing
       case SigningFails => Next(s, Finished(Failed(SigningFailed(who.userId))))
       case Signs(kid) =>
         Next(s, Finished(Tokens(AccessToken(kid, who.userId, t, who.email, who.username, Thumbprint(e.dpop)),
                                 TokenText(sid, e.tokenValue)))))
  }

  function StepAccess(s: Store, c: Call, pc: AccessPc): (r: Next)
    requires pc.next.ThenSign? ==> c.Refresh?
    ensures Fits(c, r.pc)
  {
    var t := c.tenantId;
    match pc
    case FindAccess(sid, who, cl, next) =>
      if Access(t, sid, cl) in s.accesses then Next(s, AfterRecorded(sid, who, next))
      else Next(s, AtAccess(AddAccess(sid, who, cl, next)))
    case AddAccess(sid, who, cl, next) =>
      if Access(t, sid, cl) in s.accesses || Key(t, cl) !in s.clients
      then Next(s, Finished(Failed(ConstraintViolation)))
      else Next(s.(accesses := s.accesses + {Access(t, sid, cl)}), AtAccess(AuditAccess(sid, who, cl, next)))
    case AuditAccess(sid, who, cl, next) =>
      Next(s.(audits := s.audits + [SsoProductAccess(t, who.userId, Access(t, sid, cl))]),
           AfterRecorded(sid, who, next))
  }

  function ClosingTime(c: Call): int
    requires c.Refresh? || c.Revoke? || c.RevokeOne? || c.RevokeAll?
  {
    if c.Refresh? then c.env.now else c.now
  }

  function StepClose(s: Store, c: Call, pc: ClosePc): (r: Next)
    requires CloseFits(c, pc)
    ensures Fits(c, r.pc)
  {
    var t, now := c.tenantId, ClosingTime(c);
    match pc
    case CloseRows(u, after) =>
      Next(s.(sessions := CloseUserRows(s.sessions, t, u, now)), AtClose(ReportRows(u, after)))
    case ReportRows(u, after) => Next(AppendEvent(s, t, AllSessionsRevoked(u)), AfterClosed(u, after))
    case ReportHijack(u, sid) =>
      Next(AppendEvent(s, t, SessionHijackDetected(u, sid, c.env.origin)), Finished(Failed(TokenReuse)))
    case ReadOwner =>
      if Key(t, c.sessionId) in s.sessions && s.sessions[Key(t, c.sessionId)].userId == c.userId
      then Next(s, AtClose(CloseNamed(c.sessionId)))
      else Next(s, Finished(Failed(NotOwnSession)))
    case CloseNamed(sid) =>
      if Key(t, sid) !in s.sessions then Next(s, Finished(Failed(RecordNotFound)))
      else Next(CloseSession(s, Key(t, sid), now), AtClose(ReportNamed(sid)))
    case ReportNamed(sid) => Next(AppendEvent(s, t, SessionRevoked(sid)), Finished(Success))
  }

  function StepConsent(s: Store, c: Call): (r: Next)
    requires c.Consent?
    ensures Fits(c, r.pc)
  {
    var k := Key(c.tenantId, c.sessionId);
    if k !in s.sessions || s.sessions[k].userId != c.userId || s.sessions[k].revokedAt.Some?
    then Next(s, Finished(Failed(InvalidSession)))
    else Next(s, AtAccess(FindAccess(c.sessionId, Subject(c.userId, None, None), c.appClientId, ThenDone)))
  }

  function StepUser(s: Store, c: Call, pc: UserPc): (r: Next)
    requires UserFits(c, pc)
    ensures Fits(c, r.pc)
  {
    match pc
    case CheckEmail(u) =>
      if u.email.Some? && UserByEmail(s.users, u.tenantId, u.email.value).Some?
      then Next(s, Finished(Failed(DuplicateEmail))) else Next(s, AfterEmail(u))
    case CheckName(u) =>
      if u.username.Some? && UserByName(s.users, u.tenantId, u.username.value).Some?
      then Next(s, Finished(Failed(DuplicateUsername))) else Next(s, AtUser(AddUser(u)))
    case AddUser(u) =>
      if !UserAdmitted(s.users, u) then Next(s, Finished(Failed(ConstraintViolation)))
      else Next(InsertUser(s, u), Finished(Verified(u.id)))
    case FindVerify =>
      (match FirstUser(s.users, c.tenantId, c.identifier)
       case None => Next(s, Finished(Failed(UserNotFound)))
       case Some(u) =>
         match VerifyError(u, c.password)
         case Some(err) => Next(s, Finished(Failed(err)))
         case None =>
           if u.migration.Legacy? then Next(s, AtUser(SaveMigration(u))) else Next(s, Finished(Verified(u.id))))
    case SaveMigration(u) =>
      Next(s.(users := MigrateUser(s.users, u.tenantId, u.id, Argon2(c.password, c.salt))),
           AtUser(ReportMigration(u)))
    case ReportMigration(u) =>
      Next(AppendEvent(s, u.tenantId, UserMigrated(u.id, u.email, u.username)), Finished(Verified(u.id)))
  }

  /** Run one call up to and including its next database call. */
  function Advance(s: Store, c: Call, pc: Pc): (r: Next)
    requires Fits(c, pc)
    ensures Fits(c, r.pc)
  {
    match pc
    case AtLogin(l) => StepLogin(s, c, l)
    case AtRefresh(f) => StepRefresh(s, c, f)
    case AtAccess(a) => StepAccess(s, c, a)
    case AtClose(x) => StepClose(s, c, x)
    case AtConsent => StepConsent(s, c)
    case AtUser(u) => StepUser(s, c, u)
    case Finished(_) => Next(s, pc)
  }

  // ---------------------------------------------------------------- schedules

  datatype Config = Config(store: Store, procs: seq<Proc>)

  datatype Act = Begin(call: Call) | Resume(i: nat)

  predicate Valid(c: Config) {
    forall i :: 0 <= i < |c.procs| ==> Fits(c.procs[i].call, c.procs[i].pc)
  }

  /** One step of a schedule: a new call arrives, or a call in progress makes its next database call. */
  function Act1(c: Config, a: Act): (c': Config)
    requires Valid(c)
    ensures Valid(c')
  {
    match a
    case Begin(call) => c.(procs := c.procs + [Proc(call, Start(call))])
    case Resume(i) =>
      if i >= |c.procs| then c
      else
        var p := c.procs[i];
        var n := Advance(c.store, p.call, p.pc);
        Config(n.store, c.procs[i := p.(pc := n.pc)])
  }

  function Exec(c: Config, acts: seq<Act>): (c': Config)
    requires Valid(c)
    ensures Valid(c')
    decreases acts
  {
    if acts == [] then c else Exec(Act1(c, acts[0]), acts[1..])
  }

  // ---------------------------------------------------------------- an undisturbed call is an atomic one

  /** Database calls left to make, at most. */
  function Rank(pc: Pc): nat {
    match pc
    case AtLogin(l) =>
      (match l
       case FindLogin => 12
       case LogSuccess(_) => 11
       case FindDevice(_, _) => 10
       case AddDevice(_, _) => 9
       case UpdateDevice(_, _, _) => 9
       case AddSession(_, _) => 8
       case AddFirstAccess(_, _) => 7
       case AuditFirstAccess(_, _) => 6
       case SignFirst(_) => 5
       case ReportOpened(_, _) => 4
       case LogFailure(_) => 1)
    case AtRefresh(f) =>
      (match f
       case ReadSession(_, _) => 7
       case CloseReused(_, _) => 6
       case WriteHash(_, _) => 6
       case SignNext(_, _) => 1)
    case AtAccess(a) => if a.FindAccess? then 4 else if a.AddAccess? then 3 else 2
    case AtClose(x) =>
      (match x
       case CloseRows(_, _) => 3
       case ReportRows(_, _) => 2
       case ReportHijack(_, _) => 1
       case ReadOwner => 3
       case CloseNamed(_) => 2
       case ReportNamed(_) => 1)
    case AtConsent => 5
    case AtUser(u) =>
      (match u
       case CheckEmail(_) => 3
       case CheckName(_) => 2
       case AddUser(_) => 1
       case FindVerify => 3
       case SaveMigration(_) => 2
       case ReportMigration(_) => 1)
    case Finished(_) => 0
  }

  /** Run one call to its end with nothing else in between. */
  function Complete(s: Store, c: Call, pc: Pc): Outcome
    requires Fits(c, pc)
    decreases Rank(pc)
  {
    if pc.Finished? then Outcome(s, pc.reply)
    else
      var n := Advance(s, c, pc);
      Complete(n.store, c, n.pc)
  }
}
