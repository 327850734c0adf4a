/**
 * What an access token says when the calls interleave. Every pair of tokens any call gives under any schedule is
 * traced to what the call brought along, to the account it read at some time, and to the session it opened or rotated.
 */
module AccessTokens {
  import opened Text
  import opened Tables
  import opened SessionSpec
  import SessionEffects
  import opened Interleaving
  import opened Concurrency
  import opened Outcomes
  import opened Credentials

  /** Tables seen in the past, and those after every step of a schedule. */
  function History(past: seq<Store>, c: Config, acts: seq<Act>): seq<Store>
    requires Valid(c)
    decreases acts
  {
    if acts == [] then past else History(past + [Act1(c, acts[0]).store], Act1(c, acts[0]), acts[1..])
  }

  /** The session a refresh names, or a new one is to get. */
  ghost predicate IsFor(c: Call, sid: string) {
    if c.Refresh? then exists val :: Names(c.refreshToken, sid, val)
    else (c.Login? || c.CreateSession?) && sid == c.env.sessionId
  }

  /** The account a call acts for, as these tables show it to the call. */
  ghost predicate Shows(s: Store, c: Call, who: Subject) {
    match c
    case Login(t, identifier, password, _, _, _) =>
      var found := FirstUser(s.users, t, identifier);
      && found.Some? && found.value.status != Locked && RightPassword(found.value, password)
      && who == Subject(found.value.id, found.value.email, found.value.username)
    case CreateSession(_, userId, email, username, _, _) => who == Subject(userId, email, username)
    case Refresh(t, token, _, _) =>
      && (exists sid, val :: Names(token, sid, val) && Key(t, sid) in s.sessions
                             && s.sessions[Key(t, sid)].userId == who.userId
                             && s.sessions[Key(t, sid)].revokedAt == None
                             && s.sessions[Key(t, sid)].refreshVerHash == Sha256(val))
      && var owner := UserById(s.users, t, who.userId);
         who == Subject(who.userId, if owner.Some? then owner.value.email else None,
                        if owner.Some? then owner.value.username else None)
    case _ => false
  }

  /** The call has read this account. */
  ghost predicate Read(c: Call, who: Subject, past: seq<Store>) {
    exists s :: s in past && Shows(s, c, who)
  }

  /** The session is the one the call is for, and belongs to this account. */
  ghost predicate Owns(c: Call, sid: string, userId: string, m: map<Key, Session>) {
    IsFor(c, sid) && Key(c.tenantId, sid) in m && m[Key(c.tenantId, sid)].userId == userId
  }

  /** Tokens are true: each claim comes from the call or the account it read, and the session is the account's. */
  ghost predicate TrueTokens(c: Call, a: AccessToken, r: string, past: seq<Store>, m: map<Key, Session>) {
    && (c.Login? || c.CreateSession? || c.Refresh?)
    && Read(c, Subject(a.sub, a.email, a.username), past)
    && a.tenantId == c.tenantId
    && c.env.signing == Signs(a.kid)
    && c.env.dpop != BadProof
    && a.jkt == (if c.env.dpop.Proof? then Some(c.env.dpop.jkt) else None)
    && exists sid :: Owns(c, sid, a.sub, m) && r == sid + ":" + c.env.tokenValue
  }

  // ---------------------------------------------------------------- what a call on its way to tokens has established

  ghost predicate LoginStamped(c: Call, pc: LoginPc, past: seq<Store>, m: map<Key, Session>)
    requires LoginFits(c, pc)
  {
    match pc
    case FindLogin => true
    case LogFailure(_) => true
    case LogSuccess(u) => Read(c, Subject(u.id, u.email, u.username), past)
    case _ =>
      && Read(c, pc.who, past) && c.env.dpop != BadProof
      && (pc.AddFirstAccess? || pc.AuditFirstAccess? || pc.SignFirst? || pc.ReportOpened? ==>
            Owns(c, c.env.sessionId, pc.who.userId, m))
      && (pc.ReportOpened? ==> c.env.signing == Signs(pc.kid))
  }

  ghost predicate Stamped(c: Call, pc: Pc, past: seq<Store>, m: map<Key, Session>)
    requires Fits(c, pc)
  {
    match pc
    case AtLogin(l) => LoginStamped(c, l, past, m)
    case AtRefresh(ReadSession(sid, val)) => Names(c.refreshToken, sid, val)
    case AtRefresh(CloseReused(_, _)) => true
    case AtRefresh(f) => Read(c, f.who, past) && Owns(c, f.sid, f.who.userId, m) && c.env.dpop != BadProof
    case AtAccess(a) =>
      a.next.ThenSign? ==> Read(c, a.who, past) && Owns(c, a.sid, a.who.userId, m) && c.env.dpop != BadProof
    case AtClose(CloseRows(_, ThenReply(r))) => !r.Tokens?
    case AtClose(ReportRows(_, ThenReply(r))) => !r.Tokens?
    case Finished(r) => r.Tokens? ==> TrueTokens(c, r.accessToken, r.refreshToken, past, m)
    case _ => true
  }

  lemma StartStamped(c: Call, past: seq<Store>, m: map<Key, Session>)
    requires past != []
    ensures Stamped(c, Start(c), past, m)
  {
    if c.Refresh? {
      var p := ParseToken(c.refreshToken);
      if p.Some? {
        TokenParts(c.refreshToken, p.value.0, p.value.1);
      }
    } else if c.CreateSession? {
      assert Shows(past[0], c, Subject(c.userId, c.email, c.username));
    }
  }

  lemma LoginAdvance(s: Store, c: Call, pc: LoginPc, past: seq<Store>)
    requires LoginFits(c, pc) && LoginStamped(c, pc, past, s.sessions) && s in past
    ensures Stamped(c, StepLogin(s, c, pc).pc, past, StepLogin(s, c, pc).store.sessions)
  {
    if pc.FindLogin? {
      var u := FirstUser(s.users, c.tenantId, c.identifier);
      if u.Some? && CredentialError(u.value, c.password).None? {
        assert Shows(s, c, Subject(u.value.id, u.value.email, u.value.username));
      }
    }
  }

  lemma RefreshAdvance(s: Store, c: Call, pc: RefreshPc, past: seq<Store>)
    requires c.Refresh? && Stamped(c, AtRefresh(pc), past, s.sessions) && s in past
    ensures Stamped(c, StepRefresh(s, c, pc).pc, past, StepRefresh(s, c, pc).store.sessions)
  {
    if pc.ReadSession? && Key(c.tenantId, pc.sid) in s.sessions {
      var who := OwnerOf(s, c.tenantId, s.sessions[Key(c.tenantId, pc.sid)].userId);
      if StepRefresh(s, c, pc).pc == AtRefresh(WriteHash(pc.sid, who)) {
        assert Names(c.refreshToken, pc.sid, pc.val);
        assert Shows(s, c, who);
      }
    }
  }

  lemma AccessAdvance(s: Store, c: Call, pc: AccessPc, past: seq<Store>)
    requires Fits(c, AtAccess(pc)) && Stamped(c, AtAccess(pc), past, s.sessions)
    ensures Stamped(c, StepAccess(s, c, pc).pc, past, StepAccess(s, c, pc).store.sessions)
  {
  }

  lemma OtherAdvance(s: Store, c: Call, pc: Pc, past: seq<Store>)
    requires Fits(c, pc) && !pc.AtLogin? && !pc.AtRefresh? && !pc.AtAccess? && Stamped(c, pc, past, s.sessions)
    ensures Stamped(c, Advance(s, c, pc).pc, past, Advance(s, c, pc).store.sessions)
  {
  }

  /** One database call: what the call has established, and what it reads or writes, establishes what comes after. */
  lemma AdvanceStamped(s: Store, c: Call, pc: Pc, past: seq<Store>)
    requires Fits(c, pc) && Stamped(c, pc, past, s.sessions) && s in past
    ensures Stamped(c, Advance(s, c, pc).pc, past, Advance(s, c, pc).store.sessions)
  {
    match pc
    case AtLogin(l) => LoginAdvance(s, c, l, past);
    case AtRefresh(r) => RefreshAdvance(s, c, r, past);
    case AtAccess(a) => AccessAdvance(s, c, a, past);
    case _ => OtherAdvance(s, c, pc, past);
  }

  /** What others do takes nothing back. */
  lemma StampStays(c: Call, pc: Pc, past: seq<Store>, next: Store, m: map<Key, Session>)
    requires Fits(c, pc) && Stamped(c, pc, past, m) && SessionEffects.Grows(m, next.sessions)
    ensures Stamped(c, pc, past + [next], next.sessions)
  {
    assert forall s: Store :: s in past ==> s in past + [next];
  }

  ghost predicate AllStamped(c: Config, past: seq<Store>)
    requires Valid(c)
  {
    && c.store in past
    && forall i :: 0 <= i < |c.procs| ==> Stamped(c.procs[i].call, c.procs[i].pc, past, c.store.sessions)
  }

  lemma Act1Stamped(c: Config, a: Act, past: seq<Store>)
    requires Valid(c) && AllStamped(c, past)
    ensures AllStamped(Act1(c, a), past + [Act1(c, a).store])
  {
    var c' := Act1(c, a);
    forall i | 0 <= i < |c'.procs|
      ensures Stamped(c'.procs[i].call, c'.procs[i].pc, past + [c'.store], c'.store.sessions)
    {
      var p' := c'.procs[i];
      if a.Begin? && i == |c.procs| {
        StartStamped(a.call, past + [c'.store], c'.store.sessions);
      } else if a.Resume? && a.i < |c.procs| {
        var p := c.procs[a.i];
        AdvanceGrows(c.store, p.call, p.pc);
        if i == a.i {
          AdvanceStamped(c.store, p.call, p.pc, past);
          StampStays(p'.call, p'.pc, past, c'.store, c'.store.sessions);
        } else {
          StampStays(p'.call, p'.pc, past, c'.store, c.store.sessions);
        }
      } else {
        StampStays(p'.call, p'.pc, past, c'.store, c.store.sessions);
      }
    }
  }

  lemma {:induction false} ExecStamped(c: Config, acts: seq<Act>, past: seq<Store>)
    requires Valid(c) && AllStamped(c, past)
    ensures AllStamped(Exec(c, acts), History(past, c, acts))
    decreases acts
  {
    if acts != [] {
      Act1Stamped(c, acts[0], past);
      ExecStamped(Act1(c, acts[0]), acts[1..], past + [Act1(c, acts[0]).store]);
    }
  }

  /**
   * Under every schedule of single database calls: whenever a call has ended with tokens, the access token is signed
   * with the key the call was given, bound to the key of its proof or to none, for the call's tenant, and names an
   * account just as the tables showed it to the call at some time; the refresh token names the session the call opened
   * or rotated, which belongs to that account.
   */
  lemma TokensAreTrue(s: Store, acts: seq<Act>, i: nat)
    ensures var c := Exec(Config(s, []), acts);
            i < |c.procs| && c.procs[i].pc.Finished? && c.procs[i].pc.reply.Tokens? ==>
              TrueTokens(c.procs[i].call, c.procs[i].pc.reply.accessToken, c.procs[i].pc.reply.refreshToken,
                         History([s], Config(s, []), acts), c.store.sessions)
  {
    ExecStamped(Config(s, []), acts, [s]);
  }
}
