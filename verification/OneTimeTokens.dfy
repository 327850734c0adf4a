/**
 * The session table refines a machine of one-time tokens. The machine is kept from the calls and their
 * replies alone: who opened which session, and which token value was issued to it last while it is open. Where
 * signing fails after a session was opened, the exception of the real service does not say for whom; here it does,
 * so that the machine knows the owner of a session whose tokens never reached anybody.
 */
module OneTimeTokens {
  import opened Text
  import opened Tables
  import opened SessionSpec
  import opened SessionEffects

  /** `owner` remembers every session ever opened; `live` holds the one redeemable value of each open one. */
  datatype Book = Book(owner: map<Key, string>, live: map<Key, string>)

  function Open(b: Book, k: Key, userId: string, val: string): Book {
    Book(b.owner[k := userId], b.live[k := val])
  }

  function Reissue(b: Book, t: string, token: string, val: string): Book {
    match ParseToken(token)
    case None => b
    case Some((sid, _)) => b.(live := b.live[Key(t, sid) := val])
  }

  function Shut(b: Book, k: Key): Book {
    b.(live := b.live - {k})
  }

  function ShutUser(b: Book, t: string, userId: string): Book {
    b.(live := map k | k in b.live && !(k.tenantId == t && k in b.owner && b.owner[k] == userId) :: b.live[k])
  }

  /** The owner of the session a presented token names loses every open session. */
  function ShutOwner(b: Book, t: string, token: string): Book {
    match ParseToken(token)
    case None => b
    case Some((sid, _)) => if Key(t, sid) in b.owner then ShutUser(b, t, b.owner[Key(t, sid)]) else b
  }

  /** One entry of the log. */
  function BookStep(b: Book, c: Call, r: Reply): Book {
    match c
    case Login(t, _, _, _, _, e) => Opened(b, t, e, r)
    case CreateSession(t, _, _, _, _, e) => Opened(b, t, e, r)
    case Refresh(t, token, _, e) =>
      if Redeemed(r) then Reissue(b, t, token, e.tokenValue)
      else if r == Failed(RevokedSession) || r == Failed(TokenReuse) then ShutOwner(b, t, token)
      else b
    case Revoke(t, token, _) =>
      var p := ParseToken(token);
      if r.Success? && p.Some? then Shut(b, Key(t, p.value.0)) else b
    case RevokeOne(t, _, sid, _) => if r.Success? then Shut(b, Key(t, sid)) else b
    case RevokeAll(t, u, _) => ShutUser(b, t, u)
    case _ => b
  }

  function Opened(b: Book, t: string, e: Env, r: Reply): Book {
    if Issued(r) then Open(b, Key(t, e.sessionId), Subject(r), e.tokenValue) else b
  }

  function BookRun(b: Book, cs: seq<Call>, rs: seq<Reply>): Book
    requires |cs| == |rs|
    decreases cs
  {
    if cs == [] then b else BookRun(BookStep(b, cs[0], rs[0]), cs[1..], rs[1..])
  }

  /** What the table says, in the machine's terms. */
  function Abs(m: map<Key, Session>): Book {
    Book(map k | k in m :: m[k].userId,
         map k | k in m && m[k].revokedAt.None? :: m[k].refreshVerHash.preimage)
  }

  lemma CloseUserRefines(m: map<Key, Session>, t: string, userId: string, now: int)
    ensures Abs(CloseUserRows(m, t, userId, now)) == ShutUser(Abs(m), t, userId)
  {
    var m' := CloseUserRows(m, t, userId, now);
    assert forall k :: k in Abs(m').live <==> k in ShutUser(Abs(m), t, userId).live;
    assert Abs(m').owner == Abs(m).owner;
  }

  lemma CloseOneRefines(m: map<Key, Session>, k: Key, now: int)
    requires k in m
    ensures Abs(m[k := m[k].(revokedAt := Some(now))]) == Shut(Abs(m), k)
  {
  }

  lemma ClosedFromRefines(m: map<Key, Session>, k: Key, now: int)
    requires k in m
    ensures Abs(ClosedFrom(m, k, now)) == ShutUser(Abs(m), k.tenantId, m[k].userId)
  {
    CloseOneRefines(m, k, now);
    CloseUserRefines(m[k := m[k].(revokedAt := Some(now))], k.tenantId, m[k].userId, now);
    assert ShutUser(Shut(Abs(m), k), k.tenantId, m[k].userId) == ShutUser(Abs(m), k.tenantId, m[k].userId);
  }

  lemma RotateRefines(m: map<Key, Session>, k: Key, e: Env)
    requires k in m && m[k].revokedAt.None?
    ensures Abs(m[k := Rotated(m[k], e)]) == Abs(m).(live := Abs(m).live[k := e.tokenValue])
  {
  }

  /** The machine redeems a value only if it is the live one of the session the token names. */
  predicate Legal(b: Book, c: Call, r: Reply) {
    c.Refresh? && Redeemed(r) ==>
      var p := ParseToken(c.refreshToken);
      p.Some? && Key(c.tenantId, p.value.0) in b.live && b.live[Key(c.tenantId, p.value.0)] == p.value.1
  }

  lemma OpeningRefines(m: map<Key, Session>, m': map<Key, Session>, t: string, e: Env, r: Reply)
    requires OpensOne(m, m', t, e, r)
    ensures Abs(m') == Opened(Abs(m), t, e, r)
  {
    if Issued(r) {
      var k := Key(t, e.sessionId);
      assert Abs(m[k := m'[k]]) == Open(Abs(m), k, Subject(r), e.tokenValue);
    }
  }

  lemma RotationRefines(m: map<Key, Session>, m': map<Key, Session>, t: string, token: string, cl: Option<string>,
                        e: Env, r: Reply)
    requires RotatesOne(m, m', t, token, e, r)
    ensures Legal(Abs(m), Refresh(t, token, cl, e), r)
    ensures Abs(m') == BookStep(Abs(m), Refresh(t, token, cl, e), r)
  {
    var p := ParseToken(token);
    if Redeemed(r) {
      RotateRefines(m, Key(t, p.value.0), e);
    } else if r == Failed(RevokedSession) {
      CloseUserRefines(m, t, m[Key(t, p.value.0)].userId, e.now);
    } else if r == Failed(TokenReuse) {
      ClosedFromRefines(m, Key(t, p.value.0), e.now);
    }
  }

  lemma EffectRefines(m: map<Key, Session>, c: Call, r: Reply, m': map<Key, Session>)
    requires Effect(m, c, r, m')
    ensures Legal(Abs(m), c, r)
    ensures Abs(m') == BookStep(Abs(m), c, r)
  {
    match c
    case Login(t, _, _, _, _, e) => OpeningRefines(m, m', t, e, r);
    case CreateSession(t, _, _, _, _, e) => OpeningRefines(m, m', t, e, r);
    case Refresh(t, token, cl, e) => RotationRefines(m, m', t, token, cl, e, r);
    case Revoke(t, token, now) =>
      if r.Success? {
        CloseOneRefines(m, Key(t, ParseToken(token).value.0), now);
      }
    case RevokeOne(t, _, sid, now) =>
      if r.Success? {
        CloseOneRefines(m, Key(t, sid), now);
      }
    case RevokeAll(t, u, now) => CloseUserRefines(m, t, u, now);
    case _ =>
  }

  lemma StepRefines(s: Store, c: Call)
    ensures Legal(Abs(s.sessions), c, Step(s, c).reply)
    ensures Abs(Step(s, c).store.sessions) == BookStep(Abs(s.sessions), c, Step(s, c).reply)
  {
    StepEffect(s, c);
    EffectRefines(s.sessions, c, Step(s, c).reply, Step(s, c).store.sessions);
  }

  predicate LegalRun(b: Book, cs: seq<Call>, rs: seq<Reply>)
    requires |cs| == |rs|
    decreases cs
  {
    cs == [] || (Legal(b, cs[0], rs[0]) && LegalRun(BookStep(b, cs[0], rs[0]), cs[1..], rs[1..]))
  }

  /** Over every run, the table is the book kept from the log, and the log is one the machine allows. */
  lemma {:induction false} RunRefines(s: Store, cs: seq<Call>)
    ensures Abs(Run(s, cs).sessions) == BookRun(Abs(s.sessions), cs, Replies(s, cs))
    ensures LegalRun(Abs(s.sessions), cs, Replies(s, cs))
    decreases cs
  {
    if cs != [] {
      StepRefines(s, cs[0]);
      RunRefines(Step(s, cs[0]).store, cs[1..]);
      assert Replies(s, cs)[1..] == Replies(Step(s, cs[0]).store, cs[1..]);
    }
  }

  /**
   * After any run from an empty session table, a presented token gets past the session and hash checks
   * exactly when it is the value issued last to a session of that tenant that the log has not seen closed.
   */
  lemma PassesIffLastIssued(s: Store, cs: seq<Call>, t: string, token: string)
    requires s.sessions == map[]
    ensures var b := BookRun(Book(map[], map[]), cs, Replies(s, cs));
            Passes(Run(s, cs), t, token)
            <==> var p := ParseToken(token);
                 p.Some? && Key(t, p.value.0) in b.live && b.live[Key(t, p.value.0)] == p.value.1
  {
    RunRefines(s, cs);
    assert Abs(s.sessions) == Book(map[], map[]);
    var m := Run(s, cs).sessions;
    var p := ParseToken(token);
    if p.Some? && Key(t, p.value.0) in m {
      var h := m[Key(t, p.value.0)].refreshVerHash;
      assert h == Sha256(h.preimage);
    }
  }

  // ---------------------------------------------------------------- accepted at most once

  /** The value a call draws for a token, if it is of a kind that may issue one. */
  function Drawn(c: Call): Option<string> {
    if c.Login? || c.CreateSession? || c.Refresh? then Some(c.env.tokenValue) else None
  }

  function Spend(used: set<string>, c: Call): set<string> {
    if Drawn(c).Some? then used + {Drawn(c).value} else used
  }

  /** Random token values do not repeat. */
  predicate FreshRun(used: set<string>, cs: seq<Call>)
    decreases cs
  {
    cs == [] || ((Drawn(cs[0]).Some? ==> Drawn(cs[0]).value !in used) && FreshRun(Spend(used, cs[0]), cs[1..]))
  }

  /** A refresh that consumed the value it was given. */
  predicate Accepts(c: Call, r: Reply, val: string) {
    c.Refresh? && Redeemed(r) && ParseToken(c.refreshToken).Some? && ParseToken(c.refreshToken).value.1 == val
  }

  /** Live values are pairwise different and all spent from `used`. */
  ghost predicate Distinct(m: map<Key, string>, used: set<string>) {
    && (forall k :: k in m ==> m[k] in used)
    && (forall k, k' :: k in m && k' in m && m[k] == m[k'] ==> k == k')
  }

  lemma BookStepKeepsDistinct(b: Book, c: Call, r: Reply, used: set<string>)
    requires Distinct(b.live, used) && Legal(b, c, r)
    requires Drawn(c).Some? ==> Drawn(c).value !in used
    ensures Distinct(BookStep(b, c, r).live, Spend(used, c))
    ensures forall v :: v in used && v !in b.live.Values ==> v !in BookStep(b, c, r).live.Values
    ensures forall v :: Accepts(c, r, v) ==> v in used && v !in BookStep(b, c, r).live.Values
  {
    if c.Refresh? && Redeemed(r) {
      var k := Key(c.tenantId, ParseToken(c.refreshToken).value.0);
      assert BookStep(b, c, r).live == b.live[k := c.env.tokenValue];
    }
  }

  /** A value that is spent and not live is never accepted later. */
  lemma {:induction false} DeadValueStaysDead(b: Book, cs: seq<Call>, rs: seq<Reply>, used: set<string>,
                                              val: string, j: nat)
    requires j < |cs| == |rs|
    requires Distinct(b.live, used) && FreshRun(used, cs) && LegalRun(b, cs, rs)
    requires val in used && val !in b.live.Values
    ensures !Accepts(cs[j], rs[j], val)
    decreases cs
  {
    BookStepKeepsDistinct(b, cs[0], rs[0], used);
    if j > 0 {
      DeadValueStaysDead(BookStep(b, cs[0], rs[0]), cs[1..], rs[1..], Spend(used, cs[0]), val, j - 1);
    }
  }

  lemma {:induction false} BookAcceptsOnce(b: Book, cs: seq<Call>, rs: seq<Reply>, used: set<string>,
                                           val: string, i: nat, j: nat)
    requires i < j < |cs| == |rs|
    requires Distinct(b.live, used) && FreshRun(used, cs) && LegalRun(b, cs, rs)
    requires Accepts(cs[i], rs[i], val)
    ensures !Accepts(cs[j], rs[j], val)
    decreases cs
  {
    BookStepKeepsDistinct(b, cs[0], rs[0], used);
    var b' := BookStep(b, cs[0], rs[0]);
    if i == 0 {
      DeadValueStaysDead(b', cs[1..], rs[1..], Spend(used, cs[0]), val, j - 1);
    } else {
      BookAcceptsOnce(b', cs[1..], rs[1..], Spend(used, cs[0]), val, i - 1, j - 1);
    }
  }

  /**
   * In any run of uninterrupted calls whose random values do not repeat, no token value is accepted twice,
   * by any session of any tenant.
   */
  lemma AcceptedAtMostOnce(s: Store, cs: seq<Call>, used: set<string>, val: string, i: nat, j: nat)
    requires Distinct(Abs(s.sessions).live, used) && FreshRun(used, cs)
    requires i < j < |cs|
    requires Accepts(cs[i], Replies(s, cs)[i], val)
    ensures !Accepts(cs[j], Replies(s, cs)[j], val)
  {
    RunRefines(s, cs);
    BookAcceptsOnce(Abs(s.sessions), cs, Replies(s, cs), used, val, i, j);
  }

  // ---------------------------------------------------------------- how long a token stays good

  /** The value a session would accept. */
  function Current(m: map<Key, Session>, k: Key): Option<string> {
    if k in m && m[k].revokedAt.None? then Some(m[k].refreshVerHash.preimage) else None
  }

  /** The call rotates or closes session `k`, alone or with its owner's other sessions. */
  predicate Touched(s: Store, c: Call, k: Key)
    requires k in s.sessions
  {
    match c
    case Refresh(t, token, _, e) =>
      var p := ParseToken(token);
      && p.Some? && Key(t, p.value.0) in s.sessions
      && (if Passes(s, t, token) then !e.dpop.BadProof? && Key(t, p.value.0) == k
          else t == k.tenantId && s.sessions[Key(t, p.value.0)].userId == s.sessions[k].userId)
    case Revoke(t, token, _) => ParseToken(token).Some? && Key(t, ParseToken(token).value.0) == k
    case RevokeOne(t, u, sid, _) => Key(t, sid) == k && s.sessions[k].userId == u
    case RevokeAll(t, u, _) => t == k.tenantId && s.sessions[k].userId == u
    case _ => false
  }

  predicate UntouchedRun(s: Store, cs: seq<Call>, k: Key)
    requires k in s.sessions
    decreases cs
  {
    cs == []
    || (!Touched(s, cs[0], k)
        && k in Step(s, cs[0]).store.sessions && UntouchedRun(Step(s, cs[0]).store, cs[1..], k))
  }

  predicate NotDrawn(cs: seq<Call>, val: string) {
    forall c :: c in cs ==> Drawn(c) != Some(val)
  }

  lemma RefreshCurrentIff(s: Store, c: Call, k: Key, val: string)
    requires c.Refresh? && k in s.sessions && Drawn(c) != Some(val)
    ensures k in Step(s, c).store.sessions
    ensures Current(Step(s, c).store.sessions, k) == Some(val)
            <==> Current(s.sessions, k) == Some(val) && !Touched(s, c, k)
  {
    RefreshEffect(s, c.tenantId, c.refreshToken, c.clientId, c.env);
  }

  lemma StepCurrentIff(s: Store, c: Call, k: Key, val: string)
    requires k in s.sessions && Drawn(c) != Some(val)
    ensures k in Step(s, c).store.sessions
    ensures Current(Step(s, c).store.sessions, k) == Some(val)
            <==> Current(s.sessions, k) == Some(val) && !Touched(s, c, k)
  {
    if c.Refresh? {
      RefreshCurrentIff(s, c, k, val);
    } else {
      StepEffect(s, c);
    }
  }

  /** Over any run whose random values are new, a value stays current exactly as long as no call touches its session. */
  lemma {:induction false} CurrentIffUntouchedRun(s: Store, cs: seq<Call>, k: Key, val: string)
    requires k in s.sessions && NotDrawn(cs, val)
    ensures Current(Run(s, cs).sessions, k) == Some(val)
            <==> Current(s.sessions, k) == Some(val) && UntouchedRun(s, cs, k)
    decreases cs
  {
    if cs != [] {
      StepCurrentIff(s, cs[0], k, val);
      CurrentIffUntouchedRun(Step(s, cs[0]).store, cs[1..], k, val);
    }
  }

  lemma PassesIffCurrent(s: Store, t: string, token: string)
    requires ParseToken(token).Some?
    ensures Passes(s, t, token)
            <==> Current(s.sessions, Key(t, ParseToken(token).value.0)) == Some(ParseToken(token).value.1)
  {
    var k := Key(t, ParseToken(token).value.0);
    if k in s.sessions {
      var h := s.sessions[k].refreshVerHash;
      assert h == Sha256(h.preimage);
    }
  }

  /**
   * A refresh refused for its proof of possession does not use its token up: whatever calls follow, the token
   * passes exactly until one of them touches its session.
   */
  lemma BadProofKeepsToken(s: Store, c: Call, cs: seq<Call>)
    requires c.Refresh? && Step(s, c).reply == Failed(DpopFailed)
    requires NotDrawn(cs, ParseToken(c.refreshToken).value.1)
    ensures Passes(Run(Step(s, c).store, cs), c.tenantId, c.refreshToken)
            <==> UntouchedRun(Step(s, c).store, cs, Key(c.tenantId, ParseToken(c.refreshToken).value.0))
  {
    var p := ParseToken(c.refreshToken);
    assert Step(s, c).store == s;
    CurrentIffUntouchedRun(s, cs, Key(c.tenantId, p.value.0), p.value.1);
    PassesIffCurrent(s, c.tenantId, c.refreshToken);
    PassesIffCurrent(Run(s, cs), c.tenantId, c.refreshToken);
  }
}
