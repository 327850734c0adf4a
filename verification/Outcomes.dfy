/**
 * What each session call answers and which rows it writes, for every database it may find, stated by the rows
 * themselves: quantifiers over the tables instead of the searches, and fields instead of the functions that fill them.
 */
module Outcomes {
  import opened Text
  import opened Tables
  import opened SessionSpec

  // ---------------------------------------------------------------- opening a session

  /** A device of this user with the fingerprint the request names. */
  predicate KnownAs(d: Device, t: string, userId: string, fingerprint: Option<string>) {
    d.tenantId == t && d.userId == userId && Some(d.fingerprint) == fingerprint
  }

  predicate HasUser(s: Store, t: string, userId: string) {
    exists u :: u in s.users && u.tenantId == t && u.id == userId
  }

  /** No device is named, or it is known, or it can be added: its generated id is free and the user exists. */
  predicate DeviceFits(s: Store, t: string, userId: string, fingerprint: Option<string>, e: Env) {
    || fingerprint == None || fingerprint == Some("")
    || (exists d :: d in s.devices && KnownAs(d, t, userId, fingerprint))
    || (HasUser(s, t, userId) && forall d :: d in s.devices ==> d.tenantId != t || d.id != e.deviceId)
  }

  /** The database takes the rows of a new session. */
  predicate SessionFits(s: Store, t: string, userId: string, fingerprint: Option<string>, clientId: Option<string>,
                        e: Env) {
    && DeviceFits(s, t, userId, fingerprint, e)
    && Key(t, e.sessionId) !in s.sessions
    && HasUser(s, t, userId)
    && (clientId == None || clientId == Some("") || Key(t, clientId.value) in s.clients)
  }

  /** The access token of this account, bound to the key of the proof that came with the request, if one did. */
  function TokenOf(kid: string, userId: string, t: string, email: Option<string>, username: Option<string>, e: Env)
    : AccessToken
  {
    AccessToken(kid, userId, t, email, username, if e.dpop.Proof? then Some(e.dpop.jkt) else None)
  }

  /** The reply to a request for a session of this account. */
  function Issue(s: Store, t: string, userId: string, email: Option<string>, username: Option<string>,
                 fingerprint: Option<string>, clientId: Option<string>, e: Env): Reply
  {
    if e.dpop == BadProof then Failed(DpopFailed)
    else if !SessionFits(s, t, userId, fingerprint, clientId, e) then Failed(ConstraintViolation)
    else if e.signing == SigningFails then Failed(SigningFailed(userId))
    else Tokens(TokenOf(e.signing.kid, userId, t, email, username, e), e.sessionId + ":" + e.tokenValue)
  }

  /** The device a request ends up with, and the device rows it leaves. */
  predicate DeviceRows(before: seq<Device>, after: seq<Device>, device: Option<string>, t: string, userId: string,
                       fingerprint: Option<string>, e: Env)
  {
    if fingerprint == None || fingerprint == Some("") then device == None && after == before
    else if exists d :: d in before && KnownAs(d, t, userId, fingerprint) then
      && device.Some? && |after| == |before|
      && (exists d :: d in before && KnownAs(d, t, userId, fingerprint) && device == Some(d.id))
      && forall i :: 0 <= i < |before| ==>
           after[i] == if e.dpop.Proof? && before[i].tenantId == t && Some(before[i].id) == device
                       then before[i].(dpopPublicKey := Some(e.dpop.jwk), lastSeenAt := e.now) else before[i]
    else
      && device == Some(e.deviceId)
      && var agent := e.origin.userAgent;
         after == before + [Device(t, e.deviceId, userId, fingerprint.value,
                                   if agent == "" then "unknown" else if |agent| < 50 then agent else agent[..50],
                                   if e.dpop.Proof? then Some(e.dpop.jwk) else None, e.now)]
  }

  lemma {:induction false} RekeyWrites(devices: seq<Device>, t: string, id: string, jwk: string, now: int)
    ensures var devices' := RekeyDevice(devices, t, id, jwk, now);
            && |devices'| == |devices|
            && forall i :: 0 <= i < |devices| ==>
                 devices'[i] == if devices[i].tenantId == t && devices[i].id == id
                                then devices[i].(dpopPublicKey := Some(jwk), lastSeenAt := now) else devices[i]
  {
    if devices != [] {
      RekeyWrites(devices[1..], t, id, jwk, now);
    }
  }

  lemma DeviceOutcome(s: Store, t: string, userId: string, fingerprint: Option<string>, e: Env)
    ensures var o := DeviceStep(s, t, userId, fingerprint, e);
            if o.None? then !DeviceFits(s, t, userId, fingerprint, e)
            else && DeviceFits(s, t, userId, fingerprint, e)
                 && o.value.0 == s.(devices := o.value.0.devices)
                 && DeviceRows(s.devices, o.value.0.devices, o.value.1, t, userId, fingerprint, e)
  {
    UsersSearched(s.users, t, userId);
    if fingerprint.Some? {
      var d := FirstDevice(s.devices, t, userId, fingerprint.value);
      DevicesSearched(s.devices, t, userId, fingerprint.value, e.deviceId);
      if d.Some? && e.dpop.Proof? {
        RekeyWrites(s.devices, t, d.value.id, e.dpop.jwk, e.now);
      }
      assert |e.origin.userAgent| == 50 ==> e.origin.userAgent[..50] == e.origin.userAgent;
    }
  }

  lemma AdmittedIff(s: Store, t: string, userId: string, clientId: Option<string>, e: Env)
    ensures SessionAdmitted(s, t, userId, Truthy(clientId), e)
            <==> && Key(t, e.sessionId) !in s.sessions && HasUser(s, t, userId)
                 && (clientId == None || clientId == Some("") || Key(t, clientId.value) in s.clients)
  {
    UsersSearched(s.users, t, userId);
  }

  /** Every request for a session is answered so. */
  lemma IssueReply(s: Store, t: string, userId: string, email: Option<string>, username: Option<string>,
                   fingerprint: Option<string>, clientId: Option<string>, e: Env)
    ensures IssueStep(s, t, userId, email, username, fingerprint, clientId, e).reply
         == Issue(s, t, userId, email, username, fingerprint, clientId, e)
  {
    DeviceOutcome(s, t, userId, fingerprint, e);
    var d := DeviceStep(s, t, userId, fingerprint, e);
    if d.Some? {
      AdmittedIff(d.value.0, t, userId, clientId, e);
    }
  }

  /**
   * The rows of an accepted request: one open session for this user, device and product with the hash of the drawn
   * value; the product's access with its audit entry; and, once the token is signed, the event.
   */
  predicate SessionRows(s: Store, s': Store, t: string, userId: string, device: Option<string>,
                        clientId: Option<string>, e: Env)
  {
    var product := if clientId == Some("") then None else clientId;
    && s'.sessions == s.sessions[Key(t, e.sessionId) := Session(userId, device, Sha256(e.tokenValue), e.origin, e.now,
                                                                None, product)]
    && s'.accesses == s.accesses + (if product.Some? then {Access(t, e.sessionId, product.value)} else {})
    && s'.audits == s.audits + (if product.Some?
                                then [SsoProductAccess(t, userId, Access(t, e.sessionId, product.value))] else [])
    && s'.outbox == s.outbox + (if e.signing.Signs?
                                then [OutboxRow(t, SessionCreated(userId, e.sessionId, e.origin, e.dpop.Proof?))]
                                else [])
  }

  lemma OpenRows(s: Store, t: string, userId: string, device: Option<string>, email: Option<string>,
                 username: Option<string>, clientId: Option<string>, e: Env)
    ensures var s' := OpenStep(s, t, userId, device, email, username, Truthy(clientId), e).store;
            && SessionRows(s, s', t, userId, device, clientId, e)
            && s' == s.(sessions := s'.sessions, accesses := s'.accesses, audits := s'.audits, outbox := s'.outbox)
  {
  }

  /**
   * A request that fits, its proof being good, writes these rows. Any other writes none, but for the device if that
   * fits and it is the session that does not.
   */
  lemma IssueRows(s: Store, t: string, userId: string, email: Option<string>, username: Option<string>,
                  fingerprint: Option<string>, clientId: Option<string>, e: Env) returns (device: Option<string>)
    ensures var s' := IssueStep(s, t, userId, email, username, fingerprint, clientId, e).store;
            if e.dpop == BadProof || !DeviceFits(s, t, userId, fingerprint, e) then s' == s
            else && DeviceRows(s.devices, s'.devices, device, t, userId, fingerprint, e)
                 && (if SessionFits(s, t, userId, fingerprint, clientId, e)
                     then SessionRows(s, s', t, userId, device, clientId, e)
                          && s'.users == s.users && s'.attempts == s.attempts && s'.clients == s.clients
                     else s' == s.(devices := s'.devices))
  {
    DeviceOutcome(s, t, userId, fingerprint, e);
    var d := DeviceStep(s, t, userId, fingerprint, e);
    device := None;
    if d.Some? {
      device := d.value.1;
      AdmittedIff(d.value.0, t, userId, clientId, e);
      OpenRows(d.value.0, t, userId, device, email, username, clientId, e);
    }
  }

  // ---------------------------------------------------------------- renewing a session

  /** The token is made of these two texts. */
  predicate Names(token: string, sid: string, val: string) {
    token == sid + ":" + val && ':' !in sid && ':' !in val
  }

  /** The product exists, or is on record for the session already. */
  predicate ProductFits(s: Store, t: string, sid: string, product: string) {
    Access(t, sid, product) in s.accesses || Key(t, product) in s.clients
  }

  /** The reply to a refresh whose token names session `sid` with the value `val`. */
  function Renewal(s: Store, c: Call, sid: string, val: string): Reply
    requires c.Refresh?
  {
    var t, e := c.tenantId, c.env;
    if Key(t, sid) !in s.sessions then Failed(UnknownSession)
    else
      var row := s.sessions[Key(t, sid)];
      var owner := UserById(s.users, t, row.userId);
      if row.revokedAt != None then Failed(RevokedSession)
      else if row.refreshVerHash != Sha256(val) then Failed(TokenReuse)
      else if e.dpop == BadProof then Failed(DpopFailed)
      else if c.clientId.Some? && c.clientId.value != "" && !ProductFits(s, t, sid, c.clientId.value)
      then Failed(ConstraintViolation)
      else if e.signing == SigningFails then Failed(SigningFailed(row.userId))
      else Tokens(TokenOf(e.signing.kid, row.userId, t, if owner.Some? then owner.value.email else None,
                          if owner.Some? then owner.value.username else None, e), sid + ":" + e.tokenValue)
  }

  /** Every refresh is answered so; its token is malformed exactly when no session id and value make it up. */
  lemma RefreshReply(s: Store, c: Call, sid: string, val: string)
    requires c.Refresh?
    ensures Names(c.refreshToken, sid, val) ==> Step(s, c).reply == Renewal(s, c, sid, val)
    ensures Step(s, c).reply == Failed(BadTokenFormat) ==>
              Step(s, c).store == s && !Names(c.refreshToken, sid, val)
    ensures Step(s, c).reply == Failed(BadTokenFormat) || exists x, v :: Names(c.refreshToken, x, v)
  {
    TokenParts(c.refreshToken, sid, val);
    var p := ParseToken(c.refreshToken);
    if p.Some? {
      TokenParts(c.refreshToken, p.value.0, p.value.1);
      assert Names(c.refreshToken, p.value.0, p.value.1);
    }
  }

  /** What a refresh answered so makes of a session row. */
  function RenewedRow(s: Store, c: Call, sid: string, r: Reply, k: Key): Session
    requires c.Refresh? && k in s.sessions
  {
    var t, e, row := c.tenantId, c.env, s.sessions[k];
    if r == Failed(UnknownSession) || r == Failed(DpopFailed) || Key(t, sid) !in s.sessions then row
    else if r == Failed(RevokedSession) || r == Failed(TokenReuse) then
      if k.tenantId == t && row.userId == s.sessions[Key(t, sid)].userId && row.revokedAt == None
      then row.(revokedAt := Some(e.now)) else row
    else if k == Key(t, sid)
    then Session(row.userId, row.deviceId, Sha256(e.tokenValue), e.origin, e.now, None, row.loginClientId)
    else row
  }

  lemma RefreshRows(s: Store, c: Call, sid: string, val: string, k: Key)
    requires c.Refresh? && Names(c.refreshToken, sid, val) && k in s.sessions
    ensures var o := Step(s, c);
            && o.store.sessions.Keys == s.sessions.Keys
            && o.store.sessions[k] == RenewedRow(s, c, sid, o.reply, k)
  {
    TokenParts(c.refreshToken, sid, val);
  }

  // ---------------------------------------------------------------- product accesses

  /** The access is recorded, with an audit entry for this user if it was not on record before. */
  predicate Recorded(s: Store, s': Store, userId: string, a: Access) {
    && s'.accesses == s.accesses + {a}
    && s'.audits == s.audits + (if a in s.accesses then [] else [SsoProductAccess(a.tenantId, userId, a)])
  }

  /** The events a refresh answered so writes. */
  function RefreshEvents(s: Store, c: Call, sid: string, r: Reply): seq<OutboxRow>
    requires c.Refresh?
  {
    if (r != Failed(RevokedSession) && r != Failed(TokenReuse)) || Key(c.tenantId, sid) !in s.sessions then []
    else
      var owner := s.sessions[Key(c.tenantId, sid)].userId;
      [OutboxRow(c.tenantId, AllSessionsRevoked(owner))]
      + if r == Failed(TokenReuse) then [OutboxRow(c.tenantId, SessionHijackDetected(owner, sid, c.env.origin))] else []
  }

  /**
   * A refresh that gets as far as signing records the product it names, and no other adds an access or an audit entry;
   * only a detected replay writes events; nothing else but sessions changes.
   */
  lemma RefreshWrites(s: Store, c: Call, sid: string, val: string)
    requires c.Refresh? && Names(c.refreshToken, sid, val)
    ensures var o := Step(s, c);
            && o.store.outbox == s.outbox + RefreshEvents(s, c, sid, o.reply)
            && o.store == s.(sessions := o.store.sessions, accesses := o.store.accesses, audits := o.store.audits,
                             outbox := o.store.outbox)
            && if (o.reply.Tokens? || (o.reply.Failed? && o.reply.error.SigningFailed?))
                  && c.clientId.Some? && c.clientId.value != ""
               then Key(c.tenantId, sid) in s.sessions
                    && Recorded(s, o.store, s.sessions[Key(c.tenantId, sid)].userId,
                                Access(c.tenantId, sid, c.clientId.value))
               else o.store.accesses == s.accesses && o.store.audits == s.audits
  {
    TokenParts(c.refreshToken, sid, val);
  }

  /** A consent succeeds for an open session of the user and a product that fits, which it records. */
  lemma ConsentOutcome(s: Store, c: Call)
    requires c.Consent?
    ensures var k, o := Key(c.tenantId, c.sessionId), Step(s, c);
            if k !in s.sessions || s.sessions[k].userId != c.userId || s.sessions[k].revokedAt != None
            then o == Outcome(s, Failed(InvalidSession))
            else if !ProductFits(s, c.tenantId, c.sessionId, c.appClientId)
            then o == Outcome(s, Failed(ConstraintViolation))
            else o.reply == Success && Recorded(s, o.store, c.userId, Access(c.tenantId, c.sessionId, c.appClientId))
                 && o.store == s.(accesses := o.store.accesses, audits := o.store.audits)
  {
  }

  // ---------------------------------------------------------------- revocation

  /** The sessions a revoking call closes: the one its token or id names, or all its user has open. */
  ghost predicate Closes(s: Store, c: Call, k: Key) {
    && k in s.sessions && k.tenantId == c.tenantId
    && match c
       case Revoke(_, token, _) => exists val :: Names(token, k.id, val)
       case RevokeOne(_, u, sid, _) => k.id == sid && s.sessions[k].userId == u
       case RevokeAll(_, u, _) => s.sessions[k].userId == u && s.sessions[k].revokedAt == None
       case _ => false
  }

  /** A revoking call closes those sessions now and leaves every other row of every table as it is. */
  lemma RevocationRows(s: Store, c: Call, k: Key)
    requires c.Revoke? || c.RevokeOne? || c.RevokeAll?
    ensures var s' := Step(s, c).store;
            && s' == s.(sessions := s'.sessions, outbox := s'.outbox) && s'.sessions.Keys == s.sessions.Keys
            && (k in s.sessions ==>
                  s'.sessions[k] == if Closes(s, c, k) then s.sessions[k].(revokedAt := Some(c.now)) else s.sessions[k])
  {
    if c.Revoke? {
      var p := ParseToken(c.refreshToken);
      forall val ensures Names(c.refreshToken, k.id, val) <==> p == Some((k.id, val)) {
        TokenParts(c.refreshToken, k.id, val);
      }
      if p.Some? && p.value.0 == k.id {
        assert Names(c.refreshToken, k.id, p.value.1);
      }
    }
  }

  /** A revoking call succeeds when it names a session, one for all always does, and each success is reported once. */
  lemma RevocationReply(s: Store, c: Call, k: Key)
    requires (c.Revoke? || c.RevokeOne? || c.RevokeAll?) && k.tenantId == c.tenantId
    ensures var o := Step(s, c);
            if c.RevokeAll? then o.reply == Success && o.store.outbox == s.outbox
                                   + [OutboxRow(c.tenantId, AllSessionsRevoked(c.userId))]
            else && (o.reply == Success
                     || (!Closes(s, c, k) && o == Outcome(s, Failed(
                           if c.RevokeOne? then NotOwnSession
                           else if exists sid, val :: Names(c.refreshToken, sid, val) then RecordNotFound
                           else BadTokenFormat))))
                 && (Closes(s, c, k) ==>
                       o.reply == Success
                       && o.store.outbox == s.outbox + [OutboxRow(c.tenantId, SessionRevoked(k.id))])
                 && (o.reply == Success ==> exists id :: Closes(s, c, Key(c.tenantId, id)))
  {
    if c.Revoke? {
      var p := ParseToken(c.refreshToken);
      forall sid, val ensures Names(c.refreshToken, sid, val) <==> p == Some((sid, val)) {
        TokenParts(c.refreshToken, sid, val);
      }
      if p.Some? {
        TokenParts(c.refreshToken, p.value.0, p.value.1);
        assert Names(c.refreshToken, p.value.0, p.value.1);
        assert Step(s, c).reply == Success ==> Closes(s, c, Key(c.tenantId, p.value.0));
      }
    } else if c.RevokeOne? {
      assert Step(s, c).reply == Success ==> Closes(s, c, Key(c.tenantId, c.sessionId));
    }
  }
}
