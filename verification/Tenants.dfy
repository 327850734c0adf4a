/**
 * Tenant isolation. All tenants' rows live in the same tables; a tenant's rows and replies in any run are
 * those of the run in which every other tenant's calls never happened.
 */
module Tenants {
  import opened Text
  import opened Tables
  import opened SessionSpec

  function Keep<T>(xs: seq<T>, p: T -> bool): seq<T> {
    if xs == [] then [] else (if p(xs[0]) then [xs[0]] else []) + Keep(xs[1..], p)
  }

  lemma {:induction false} KeepAppend<T>(xs: seq<T>, x: T, p: T -> bool)
    ensures Keep(xs + [x], p) == Keep(xs, p) + (if p(x) then [x] else [])
  {
    if xs == [] {
      assert xs + [x] == [x];
    } else {
      assert (xs + [x])[0] == xs[0] && (xs + [x])[1..] == xs[1..] + [x];
      KeepAppend(xs[1..], x, p);
      assert Keep(xs + [x], p) == (if p(xs[0]) then [xs[0]] else []) + Keep(xs[1..] + [x], p);
    }
  }

  function UserOf(v: string): User -> bool { (u: User) => u.tenantId == v }
  function DeviceOf(v: string): Device -> bool { (d: Device) => d.tenantId == v }
  function AuditOf(v: string): Audit -> bool { (a: Audit) => a.tenantId == v }
  function RowOf(v: string): OutboxRow -> bool { (r: OutboxRow) => r.tenantId == v }
  function AttemptOf(v: string): Attempt -> bool { (a: Attempt) => a.tenantId == v }

  function SessionsOf(m: map<Key, Session>, v: string): map<Key, Session> {
    map k | k in m && k.tenantId == v :: m[k]
  }

  /** The rows of tenant `v`, in table order. */
  function Of(s: Store, v: string): Store {
    Store(Keep(s.users, UserOf(v)), Keep(s.devices, DeviceOf(v)), SessionsOf(s.sessions, v),
          (set a | a in s.accesses && a.tenantId == v), Keep(s.audits, AuditOf(v)), Keep(s.outbox, RowOf(v)),
          Keep(s.attempts, AttemptOf(v)), (set k | k in s.clients && k.tenantId == v))
  }

  // ---------------------------------------------------------------- lookups see only their tenant

  lemma KeepHead(users: seq<User>, v: string)
    requires users != []
    ensures var kept, rest := Keep(users, UserOf(v)), Keep(users[1..], UserOf(v));
            if users[0].tenantId == v then kept != [] && kept[0] == users[0] && kept[1..] == rest else kept == rest
  {
  }

  lemma {:induction false} FirstSeen(users: seq<User>, v: string, a: string)
    ensures FirstUser(Keep(users, UserOf(v)), v, a) == FirstUser(users, v, a)
  {
    if users != [] {
      FirstSeen(users[1..], v, a);
      KeepHead(users, v);
    }
  }

  lemma {:induction false} IdSeen(users: seq<User>, v: string, a: string)
    ensures UserById(Keep(users, UserOf(v)), v, a) == UserById(users, v, a)
  {
    if users != [] {
      IdSeen(users[1..], v, a);
      KeepHead(users, v);
    }
  }

  lemma {:induction false} EmailSeen(users: seq<User>, v: string, a: string)
    ensures UserByEmail(Keep(users, UserOf(v)), v, a) == UserByEmail(users, v, a)
  {
    if users != [] {
      EmailSeen(users[1..], v, a);
      KeepHead(users, v);
    }
  }

  lemma {:induction false} NameSeen(users: seq<User>, v: string, a: string)
    ensures UserByName(Keep(users, UserOf(v)), v, a) == UserByName(users, v, a)
  {
    if users != [] {
      NameSeen(users[1..], v, a);
      KeepHead(users, v);
    }
  }

  lemma RegisterErrorSeen(users: seq<User>, u: User)
    ensures RegisterError(Keep(users, UserOf(u.tenantId)), u) == RegisterError(users, u)
  {
    IdSeen(users, u.tenantId, u.id);
    if u.email.Some? {
      EmailSeen(users, u.tenantId, u.email.value);
    }
    if u.username.Some? {
      NameSeen(users, u.tenantId, u.username.value);
    }
  }

  lemma {:induction false} DevicesSeen(devices: seq<Device>, v: string, a: string, f: string)
    ensures FirstDevice(Keep(devices, DeviceOf(v)), v, a, f) == FirstDevice(devices, v, a, f)
    ensures DeviceKnown(Keep(devices, DeviceOf(v)), v, a) == DeviceKnown(devices, v, a)
  {
    if devices != [] {
      DevicesSeen(devices[1..], v, a, f);
      var kept := Keep(devices, DeviceOf(v));
      if devices[0].tenantId == v {
        assert kept[0] == devices[0] && kept[1..] == Keep(devices[1..], DeviceOf(v));
      } else {
        assert kept == Keep(devices[1..], DeviceOf(v));
      }
    }
  }

  // ---------------------------------------------------------------- writes touch only their tenant

  lemma {:induction false} MigrateUserOf(users: seq<User>, t: string, id: string, h: PasswordHash, v: string)
    ensures Keep(MigrateUser(users, t, id, h), UserOf(v))
         == if t == v then MigrateUser(Keep(users, UserOf(v)), t, id, h) else Keep(users, UserOf(v))
  {
    if users != [] {
      MigrateUserOf(users[1..], t, id, h, v);
      var out, kept := MigrateUser(users, t, id, h), Keep(users, UserOf(v));
      assert out[1..] == MigrateUser(users[1..], t, id, h);
      if users[0].tenantId == v {
        assert kept[0] == users[0] && kept[1..] == Keep(users[1..], UserOf(v));
      } else {
        assert kept == Keep(users[1..], UserOf(v));
      }
    }
  }

  lemma {:induction false} RekeyDeviceOf(devices: seq<Device>, t: string, id: string, jwk: string, now: int, v: string)
    ensures Keep(RekeyDevice(devices, t, id, jwk, now), DeviceOf(v))
         == if t == v then RekeyDevice(Keep(devices, DeviceOf(v)), t, id, jwk, now) else Keep(devices, DeviceOf(v))
  {
    if devices != [] {
      RekeyDeviceOf(devices[1..], t, id, jwk, now, v);
      var out, kept := RekeyDevice(devices, t, id, jwk, now), Keep(devices, DeviceOf(v));
      assert out[1..] == RekeyDevice(devices[1..], t, id, jwk, now);
      if devices[0].tenantId == v {
        assert kept[0] == devices[0] && kept[1..] == Keep(devices[1..], DeviceOf(v));
      } else {
        assert kept == Keep(devices[1..], DeviceOf(v));
      }
    }
  }

  lemma InsertUserOf(s: Store, u: User, v: string)
    ensures Of(InsertUser(s, u), v) == if u.tenantId == v then InsertUser(Of(s, v), u) else Of(s, v)
  {
    KeepAppend(s.users, u, UserOf(v));
    AppendEventOf(s.(users := s.users + [u]), u.tenantId, UserCreated(u.id, u.email, u.username), v);
  }

  lemma LogAttemptOf(s: Store, t: string, i: string, ok: bool, e: Env, v: string)
    ensures Of(LogAttempt(s, t, i, ok, e), v) == if t == v then LogAttempt(Of(s, v), t, i, ok, e) else Of(s, v)
  {
    KeepAppend(s.attempts, Attempt(t, e.origin.ipAddress, i, ok, e.now), AttemptOf(v));
  }

  lemma AppendEventOf(s: Store, t: string, ev: Event, v: string)
    ensures Of(AppendEvent(s, t, ev), v) == if t == v then AppendEvent(Of(s, v), t, ev) else Of(s, v)
  {
    KeepAppend(s.outbox, OutboxRow(t, ev), RowOf(v));
  }

  lemma SetRowOf(m: map<Key, Session>, k: Key, row: Session, v: string)
    ensures SessionsOf(m[k := row], v) == if k.tenantId == v then SessionsOf(m, v)[k := row] else SessionsOf(m, v)
  {
  }

  lemma CloseSessionOf(s: Store, k: Key, now: int, v: string)
    requires k in s.sessions
    ensures k.tenantId == v ==> k in Of(s, v).sessions
    ensures Of(CloseSession(s, k, now), v) == if k.tenantId == v then CloseSession(Of(s, v), k, now) else Of(s, v)
  {
    SetRowOf(s.sessions, k, s.sessions[k].(revokedAt := Some(now)), v);
  }

  lemma RotateSessionOf(s: Store, k: Key, e: Env, v: string)
    requires k in s.sessions
    ensures k.tenantId == v ==> k in Of(s, v).sessions
    ensures Of(RotateSession(s, k, e), v) == if k.tenantId == v then RotateSession(Of(s, v), k, e) else Of(s, v)
  {
    SetRowOf(s.sessions, k, RotateSession(s, k, e).sessions[k], v);
  }

  lemma CloseUserRowsOf(m: map<Key, Session>, t: string, u: string, now: int, v: string)
    ensures SessionsOf(CloseUserRows(m, t, u, now), v)
         == if t == v then CloseUserRows(SessionsOf(m, v), t, u, now) else SessionsOf(m, v)
  {
  }

  lemma CloseUserOf(s: Store, t: string, u: string, now: int, v: string)
    ensures Of(CloseUser(s, t, u, now), v) == if t == v then CloseUser(Of(s, v), t, u, now) else Of(s, v)
  {
    CloseUserRowsOf(s.sessions, t, u, now, v);
    AppendEventOf(s.(sessions := CloseUserRows(s.sessions, t, u, now)), t, AllSessionsRevoked(u), v);
  }

  lemma InsertSessionOf(s: Store, t: string, u: string, d: Option<string>, cl: Option<string>, e: Env, v: string)
    ensures Of(InsertSession(s, t, u, d, cl, e), v)
         == if t == v then InsertSession(Of(s, v), t, u, d, cl, e) else Of(s, v)
  {
    SetRowOf(s.sessions, Key(t, e.sessionId), InsertSession(s, t, u, d, cl, e).sessions[Key(t, e.sessionId)], v);
  }

  lemma GrantAccessOf(s: Store, a: Access, actorId: string, v: string)
    ensures Of(GrantAccess(s, a, actorId), v)
         == if a.tenantId == v then GrantAccess(Of(s, v), a, actorId) else Of(s, v)
  {
    KeepAppend(s.audits, SsoProductAccess(a.tenantId, actorId, a), AuditOf(v));
    var kept := set x | x in s.accesses + {a} && x.tenantId == v;
    assert kept == (set x | x in s.accesses && x.tenantId == v) + (if a.tenantId == v then {a} else {});
  }

  function StoreSeen(o: Option<Store>, v: string): Option<Store> {
    match o
    case None => None
    case Some(s) => Some(Of(s, v))
  }

  function DeviceSeen(o: Option<(Store, Option<string>)>, v: string): Option<(Store, Option<string>)> {
    match o
    case None => None
    case Some((s, d)) => Some((Of(s, v), d))
  }

  lemma AccessOf(s: Store, t: string, sid: string, actorId: string, client: Option<string>, v: string)
    ensures t == v ==>
              AccessStep(Of(s, v), t, sid, actorId, client) == StoreSeen(AccessStep(s, t, sid, actorId, client), v)
    ensures t != v && AccessStep(s, t, sid, actorId, client).Some? ==>
              Of(AccessStep(s, t, sid, actorId, client).value, v) == Of(s, v)
  {
    if client.Some? {
      GrantAccessOf(s, Access(t, sid, client.value), actorId, v);
    }
  }

  lemma DeviceStepOf(s: Store, t: string, u: string, f: Option<string>, e: Env, v: string)
    ensures t == v ==> DeviceStep(Of(s, v), t, u, f, e) == DeviceSeen(DeviceStep(s, t, u, f, e), v)
    ensures t != v && DeviceStep(s, t, u, f, e).Some? ==> Of(DeviceStep(s, t, u, f, e).value.0, v) == Of(s, v)
  {
    if Truthy(f).Some? {
      var fp := Truthy(f).value;
      DevicesSeen(s.devices, t, u, fp);
      DevicesSeen(s.devices, t, e.deviceId, fp);
      IdSeen(s.users, t, u);
      KeepAppend(s.devices, NewDevice(t, u, fp, e), DeviceOf(v));
      var found := FirstDevice(s.devices, t, u, fp);
      if found.Some? && e.dpop.Proof? {
        RekeyDeviceOf(s.devices, t, found.value.id, e.dpop.jwk, e.now, v);
      }
    }
  }

  // ---------------------------------------------------------------- calls

  /** What tenant `v` can see of an outcome. */
  function Seen(o: Outcome, v: string): Outcome {
    Outcome(Of(o.store, v), o.reply)
  }

  lemma IssueOf(s: Store, t: string, u: string, em: Option<string>, n: Option<string>, f: Option<string>,
                cl: Option<string>, e: Env, v: string)
    ensures t == v ==> IssueStep(Of(s, v), t, u, em, n, f, cl, e) == Seen(IssueStep(s, t, u, em, n, f, cl, e), v)
    ensures t != v ==> Of(IssueStep(s, t, u, em, n, f, cl, e).store, v) == Of(s, v)
  {
    DeviceStepOf(s, t, u, f, e, v);
    var d := DeviceStep(s, t, u, f, e);
    if d.Some? && !e.dpop.BadProof? {
      var s1, client := d.value.0, Truthy(cl);
      IdSeen(s1.users, t, u);
      assert t == v ==> SessionAdmitted(Of(s1, v), t, u, client, e) == SessionAdmitted(s1, t, u, client, e);
      if SessionAdmitted(s1, t, u, client, e) {
        OpenStepOf(s1, t, u, d.value.1, em, n, client, e, v);
      }
    }
  }

  lemma OpenStepOf(s1: Store, t: string, u: string, d: Option<string>, em: Option<string>, n: Option<string>,
                   client: Option<string>, e: Env, v: string)
    ensures t == v ==>
              OpenStep(Of(s1, v), t, u, d, em, n, client, e) == Seen(OpenStep(s1, t, u, d, em, n, client, e), v)
    ensures t != v ==> Of(OpenStep(s1, t, u, d, em, n, client, e).store, v) == Of(s1, v)
  {
    InsertSessionOf(s1, t, u, d, client, e, v);
    var s2 := InsertSession(s1, t, u, d, client, e);
    if client.Some? {
      GrantAccessOf(s2, Access(t, e.sessionId, client.value), u, v);
    }
    var s3 := if client.Some? then GrantAccess(s2, Access(t, e.sessionId, client.value), u) else s2;
    AppendEventOf(s3, t, SessionCreated(u, e.sessionId, e.origin, e.dpop.Proof?), v);
  }

  lemma LoginOf(s: Store, t: string, i: string, p: string, f: Option<string>, cl: Option<string>, e: Env, v: string)
    ensures t == v ==> LoginStep(Of(s, v), t, i, p, f, cl, e) == Seen(LoginStep(s, t, i, p, f, cl, e), v)
    ensures t != v ==> Of(LoginStep(s, t, i, p, f, cl, e).store, v) == Of(s, v)
  {
    FirstSeen(s.users, t, i);
    LogAttemptOf(s, t, i, false, e, v);
    LogAttemptOf(s, t, i, true, e, v);
    var found := FirstUser(s.users, t, i);
    if found.Some? {
      var u := found.value;
      IssueOf(LogAttempt(s, t, i, true, e), t, u.id, u.email, u.username, f, cl, e, v);
    }
  }

  lemma RotateOf(s: Store, t: string, sid: string, cl: Option<string>, e: Env, v: string)
    requires Key(t, sid) in s.sessions
    ensures t == v ==> Key(t, sid) in Of(s, v).sessions
                       && RotateStep(Of(s, v), t, sid, cl, e) == Seen(RotateStep(s, t, sid, cl, e), v)
    ensures t != v ==> Of(RotateStep(s, t, sid, cl, e).store, v) == Of(s, v)
  {
    var k := Key(t, sid);
    var u := s.sessions[k].userId;
    RotateSessionOf(s, k, e, v);
    AccessOf(RotateSession(s, k, e), t, sid, u, Truthy(cl), v);
    IdSeen(s.users, t, u);
  }

  lemma RefreshOf(s: Store, t: string, token: string, cl: Option<string>, e: Env, v: string)
    ensures t == v ==> RefreshStep(Of(s, v), t, token, cl, e) == Seen(RefreshStep(s, t, token, cl, e), v)
    ensures t != v ==> Of(RefreshStep(s, t, token, cl, e).store, v) == Of(s, v)
  {
    var p := ParseToken(token);
    if p.Some? && Key(t, p.value.0) in s.sessions {
      var sid := p.value.0;
      var k := Key(t, sid);
      var u := s.sessions[k].userId;
      if s.sessions[k].revokedAt.Some? {
        CloseUserOf(s, t, u, e.now, v);
      } else if s.sessions[k].refreshVerHash != Sha256(p.value.1) {
        CloseSessionOf(s, k, e.now, v);
        var s1 := CloseSession(s, k, e.now);
        CloseUserOf(s1, t, u, e.now, v);
        AppendEventOf(CloseUser(s1, t, u, e.now), t, SessionHijackDetected(u, sid, e.origin), v);
      } else {
        RotateOf(s, t, sid, cl, e, v);
      }
    }
  }

  lemma RegisterOf(s: Store, t: string, em: Option<string>, p: Option<string>, n: Option<string>, id: string,
                   salt: string, v: string)
    ensures t == v ==> RegisterStep(Of(s, v), t, em, p, n, id, salt) == Seen(RegisterStep(s, t, em, p, n, id, salt), v)
    ensures t != v ==> Of(RegisterStep(s, t, em, p, n, id, salt).store, v) == Of(s, v)
  {
    var u := NewUser(t, em, p, n, id, salt);
    RegisterErrorSeen(s.users, u);
    InsertUserOf(s, u, v);
  }

  lemma MigrateStepOf(s: Store, u: User, h: PasswordHash, v: string)
    ensures Of(MigrateStep(s, u, h), v) == if u.tenantId == v then MigrateStep(Of(s, v), u, h) else Of(s, v)
  {
    var users := MigrateUser(s.users, u.tenantId, u.id, h);
    MigrateUserOf(s.users, u.tenantId, u.id, h, v);
    AppendEventOf(s.(users := users), u.tenantId, UserMigrated(u.id, u.email, u.username), v);
  }

  lemma VerifyOf(s: Store, t: string, i: string, p: string, salt: string, v: string)
    ensures t == v ==> VerifyStep(Of(s, v), t, i, p, salt) == Seen(VerifyStep(s, t, i, p, salt), v)
    ensures t != v ==> Of(VerifyStep(s, t, i, p, salt).store, v) == Of(s, v)
  {
    FirstSeen(s.users, t, i);
    var found := FirstUser(s.users, t, i);
    if found.Some? {
      MigrateStepOf(s, found.value, Argon2(p, salt), v);
    }
  }

  lemma RevokeOf(s: Store, t: string, token: string, now: int, v: string)
    ensures t == v ==> RevokeStep(Of(s, v), t, token, now) == Seen(RevokeStep(s, t, token, now), v)
    ensures t != v ==> Of(RevokeStep(s, t, token, now).store, v) == Of(s, v)
  {
    var p := ParseToken(token);
    if p.Some? && Key(t, p.value.0) in s.sessions {
      CloseSessionOf(s, Key(t, p.value.0), now, v);
      AppendEventOf(CloseSession(s, Key(t, p.value.0), now), t, SessionRevoked(p.value.0), v);
    }
  }

  lemma RevokeOneOf(s: Store, t: string, u: string, sid: string, now: int, v: string)
    ensures t == v ==> RevokeOneStep(Of(s, v), t, u, sid, now) == Seen(RevokeOneStep(s, t, u, sid, now), v)
    ensures t != v ==> Of(RevokeOneStep(s, t, u, sid, now).store, v) == Of(s, v)
  {
    if Key(t, sid) in s.sessions {
      CloseSessionOf(s, Key(t, sid), now, v);
      AppendEventOf(CloseSession(s, Key(t, sid), now), t, SessionRevoked(sid), v);
    }
  }

  lemma ConsentOf(s: Store, t: string, u: string, sid: string, cl: string, v: string)
    ensures t == v ==> ConsentStep(Of(s, v), t, u, sid, cl) == Seen(ConsentStep(s, t, u, sid, cl), v)
    ensures t != v ==> Of(ConsentStep(s, t, u, sid, cl).store, v) == Of(s, v)
  {
    AccessOf(s, t, sid, u, Some(cl), v);
  }

  /** A tenant's call works on its own rows alone; another tenant's call changes none of them. */
  lemma StepOf(s: Store, c: Call, v: string)
    ensures c.tenantId == v ==> Step(Of(s, v), c) == Seen(Step(s, c), v)
    ensures c.tenantId != v ==> Of(Step(s, c).store, v) == Of(s, v)
  {
    match c
    case Login(t, i, p, f, cl, e) => LoginOf(s, t, i, p, f, cl, e, v);
    case CreateSession(t, u, em, n, cl, e) => IssueOf(s, t, u, em, n, None, cl, e, v);
    case Refresh(t, token, cl, e) => RefreshOf(s, t, token, cl, e, v);
    case Consent(t, u, sid, cl) => ConsentOf(s, t, u, sid, cl, v);
    case Revoke(t, token, now) => RevokeOf(s, t, token, now, v);
    case RevokeOne(t, u, sid, now) => RevokeOneOf(s, t, u, sid, now, v);
    case RevokeAll(t, u, now) => CloseUserOf(s, t, u, now, v);
    case Register(t, em, p, n, id, salt) => RegisterOf(s, t, em, p, n, id, salt, v);
    case Verify(t, i, p, salt) => VerifyOf(s, t, i, p, salt, v);
  }

  // ---------------------------------------------------------------- runs

  /** The calls of one tenant. */
  function CallsOf(cs: seq<Call>, v: string): seq<Call> {
    if cs == [] then [] else (if cs[0].tenantId == v then [cs[0]] else []) + CallsOf(cs[1..], v)
  }

  /** The replies to those calls. */
  function RepliesOf(cs: seq<Call>, rs: seq<Reply>, v: string): seq<Reply>
    requires |cs| == |rs|
  {
    if cs == [] then [] else (if cs[0].tenantId == v then [rs[0]] else []) + RepliesOf(cs[1..], rs[1..], v)
  }

  /**
   * Non-interference: deleting every other tenant's calls, and every other tenant's rows, from a run changes
   * neither the rows tenant `v` ends with nor any reply it gets.
   */
  lemma {:induction false} NonInterference(s: Store, cs: seq<Call>, v: string)
    ensures Of(Run(s, cs), v) == Run(Of(s, v), CallsOf(cs, v))
    ensures RepliesOf(cs, Replies(s, cs), v) == Replies(Of(s, v), CallsOf(cs, v))
    decreases cs
  {
    if cs != [] {
      var s' := Step(s, cs[0]).store;
      StepOf(s, cs[0], v);
      NonInterference(s', cs[1..], v);
      assert Replies(s, cs)[1..] == Replies(s', cs[1..]);
      if cs[0].tenantId == v {
        assert CallsOf(cs, v)[1..] == CallsOf(cs[1..], v);
      } else {
        assert CallsOf(cs, v) == CallsOf(cs[1..], v);
      }
    }
  }
}
