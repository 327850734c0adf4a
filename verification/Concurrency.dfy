/**
 * What survives arbitrary interleaving of database calls, and what does not: revocation is final for every
 * read after it, while one token can be redeemed by two refreshes whose reads both come before either write.
 */
module Concurrency {
  import opened Text
  import opened Tables
  import opened SessionSpec
  import opened SessionEffects
  import opened OneTimeTokens
  import opened Interleaving

  // ---------------------------------------------------------------- revocation

  lemma CloseGrows(s: Store, c: Call, pc: ClosePc)
    requires CloseFits(c, pc)
    ensures Grows(s.sessions, StepClose(s, c, pc).store.sessions)
  {
  }

  lemma OthersKeepSessions(s: Store, c: Call, pc: Pc)
    requires Fits(c, pc) && (pc.AtAccess? || pc.AtConsent? || pc.AtUser? || pc.Finished?)
    ensures Advance(s, c, pc).store.sessions == s.sessions
  {
  }

  /** No database call of any service call deletes a session, moves it to another user or clears its revocation. */
  lemma AdvanceGrows(s: Store, c: Call, pc: Pc)
    requires Fits(c, pc)
    ensures Grows(s.sessions, Advance(s, c, pc).store.sessions)
  {
    match pc
    case AtLogin(_) =>
    case AtRefresh(_) =>
    case AtClose(x) => CloseGrows(s, c, x);
    case _ => OthersKeepSessions(s, c, pc);
  }

  lemma Act1Grows(c: Config, a: Act)
    requires Valid(c)
    ensures Grows(c.store.sessions, Act1(c, a).store.sessions)
    ensures |c.procs| <= |Act1(c, a).procs|
  {
    if a.Resume? && a.i < |c.procs| {
      AdvanceGrows(c.store, c.procs[a.i].call, c.procs[a.i].pc);
    }
  }

  lemma {:induction false} ExecGrows(c: Config, acts: seq<Act>)
    requires Valid(c)
    ensures Grows(c.store.sessions, Exec(c, acts).store.sessions)
    decreases acts
  {
    if acts != [] {
      Act1Grows(c, acts[0]);
      ExecGrows(Act1(c, acts[0]), acts[1..]);
    }
  }

  lemma {:induction false} ExecAppend(c: Config, a: seq<Act>, b: seq<Act>)
    requires Valid(c)
    ensures Exec(c, a + b) == Exec(Exec(c, a), b)
    decreases a
  {
    if a == [] {
      assert a + b == b;
    } else {
      assert (a + b)[0] == a[0] && (a + b)[1..] == a[1..] + b;
      ExecAppend(Act1(c, a[0]), a[1..], b);
    }
  }

  /** Whatever else is in flight, no token naming a revoked session is accepted by any later read. */
  lemma RevokedIsFinal(c: Config, acts: seq<Act>, t: string, token: string)
    requires Valid(c) && ParseToken(token).Some?
    requires Key(t, ParseToken(token).value.0) in c.store.sessions
    requires c.store.sessions[Key(t, ParseToken(token).value.0)].revokedAt.Some?
    ensures !Passes(Exec(c, acts).store, t, token)
  {
    ExecGrows(c, acts);
  }

  /** The call presents a refresh token that names session `k`. */
  predicate Presents(c: Call, k: Key) {
    && c.Refresh? && c.tenantId == k.tenantId
    && ParseToken(c.refreshToken).Some? && ParseToken(c.refreshToken).value.0 == k.id
  }

  predicate RefreshOf(p: Proc, k: Key) {
    Presents(p.call, k)
  }

  /** A refresh that has not read its session yet, or read it as revoked and is on its way to saying so. */
  predicate Refused(p: Proc) {
    match p.pc
    case AtRefresh(f) => f.ReadSession? && p.call.Refresh? && Some((f.sid, f.val)) == ParseToken(p.call.refreshToken)
    case AtClose(x) =>
      (x.CloseRows? || x.ReportRows?) && x.after == ThenReply(Failed(RevokedSession))
    case Finished(r) => r == Failed(RevokedSession)
    case _ => false
  }

  /** Every refresh of `k` from number `n` on, and every one listed in `reading`, is refused so far. */
  ghost predicate AllRefused(c: Config, k: Key, n: nat, reading: set<nat>) {
    forall i :: 0 <= i < |c.procs| && (i >= n || i in reading) && RefreshOf(c.procs[i], k) ==> Refused(c.procs[i])
  }

  lemma Act1Refused(c: Config, a: Act, k: Key, n: nat, reading: set<nat>)
    requires Valid(c) && AllRefused(c, k, n, reading)
    requires k in c.store.sessions && c.store.sessions[k].revokedAt.Some?
    ensures AllRefused(Act1(c, a), k, n, reading)
  {
  }

  lemma {:induction false} ExecRefused(c: Config, acts: seq<Act>, k: Key, n: nat, reading: set<nat>)
    requires Valid(c) && AllRefused(c, k, n, reading)
    requires k in c.store.sessions && c.store.sessions[k].revokedAt.Some?
    ensures AllRefused(Exec(c, acts), k, n, reading)
    decreases acts
  {
    if acts != [] {
      Act1Refused(c, acts[0], k, n, reading);
      Act1Grows(c, acts[0]);
      ExecRefused(Act1(c, acts[0]), acts[1..], k, n, reading);
    }
  }

  /**
   * Once a session is revoked, under every schedule: a refresh of it that begins later, or that has begun but
   * not yet read the session, never succeeds.
   */
  lemma NoSuccessAfterRevocation(c: Config, acts: seq<Act>, k: Key, i: nat)
    requires Valid(c) && k in c.store.sessions && c.store.sessions[k].revokedAt.Some?
    requires i < |Exec(c, acts).procs| && RefreshOf(Exec(c, acts).procs[i], k)
    requires i < |c.procs| ==> c.procs[i].pc == Start(c.procs[i].call)
    ensures Exec(c, acts).procs[i].pc.Finished? ==>
              Exec(c, acts).procs[i].pc.reply == Failed(RevokedSession)
  {
    ExecRefused(c, acts, k, |c.procs|, {i});
  }

  // ---------------------------------------------------------------- one token, two refreshes

  /** The next database call of this process writes the hash of session `k`. */
  predicate Rotates(c: Call, pc: Pc, k: Key) {
    pc.AtRefresh? && pc.refresh.WriteHash? && Key(c.tenantId, pc.refresh.sid) == k
  }

  /** The next database call of this process writes the revocation of session `k`. */
  predicate Closes(m: map<Key, Session>, c: Call, pc: Pc, k: Key) {
    match pc
    case AtRefresh(f) => f.CloseReused? && Key(c.tenantId, f.sid) == k
    case AtClose(x) =>
      || (x.CloseRows? && k.tenantId == c.tenantId && k in m && m[k].userId == x.userId)
      || (x.CloseNamed? && Key(c.tenantId, x.sid) == k)
    case _ => false
  }

  /** It writes the hash or the revocation. */
  predicate Touches(m: map<Key, Session>, c: Call, pc: Pc, k: Key) {
    Rotates(c, pc, k) || Closes(m, c, pc, k)
  }

  lemma CloseCurrent(s: Store, c: Call, pc: ClosePc, k: Key)
    requires CloseFits(c, pc) && k in s.sessions
    ensures Current(StepClose(s, c, pc).store.sessions, k)
         == if Touches(s.sessions, c, AtClose(pc), k) then None else Current(s.sessions, k)
  {
  }

  lemma AdvanceCurrent(s: Store, c: Call, pc: Pc, k: Key, val: string)
    requires Fits(c, pc) && k in s.sessions
    ensures !Touches(s.sessions, c, pc, k) ==>
              Current(Advance(s, c, pc).store.sessions, k) == Current(s.sessions, k)
    ensures Touches(s.sessions, c, pc, k) && Drawn(c) != Some(val) ==>
              Current(Advance(s, c, pc).store.sessions, k) != Some(val)
  {
    match pc
    case AtLogin(_) =>
    case AtRefresh(_) =>
    case AtClose(x) => CloseCurrent(s, c, x, k);
    case _ => OthersKeepSessions(s, c, pc);
  }

  /** No step of the schedule writes session `k`. */
  predicate Untouched(c: Config, acts: seq<Act>, k: Key)
    requires Valid(c)
    decreases acts
  {
    acts == [] || (!ActTouches(c, acts[0], k) && Untouched(Act1(c, acts[0]), acts[1..], k))
  }

  predicate ActTouches(c: Config, a: Act, k: Key) {
    a.Resume? && a.i < |c.procs| && Touches(c.store.sessions, c.procs[a.i].call, c.procs[a.i].pc, k)
  }

  /** No call in progress or to come draws the random value `val`. */
  predicate NeverDrawn(c: Config, acts: seq<Act>, val: string) {
    && (forall i :: 0 <= i < |c.procs| ==> Drawn(c.procs[i].call) != Some(val))
    && (forall a :: a in acts && a.Begin? ==> Drawn(a.call) != Some(val))
  }

  /** A session's value stays redeemable exactly as long as no step writes the session. */
  lemma {:induction false} CurrentIffUntouched(c: Config, acts: seq<Act>, k: Key, val: string)
    requires Valid(c) && NeverDrawn(c, acts, val)
    requires k in c.store.sessions
    ensures Current(Exec(c, acts).store.sessions, k) == Some(val)
            <==> Current(c.store.sessions, k) == Some(val) && Untouched(c, acts, k)
    decreases acts
  {
    if acts != [] {
      var c' := Act1(c, acts[0]);
      Act1Grows(c, acts[0]);
      if acts[0].Resume? && acts[0].i < |c.procs| {
        AdvanceCurrent(c.store, c.procs[acts[0].i].call, c.procs[acts[0].i].pc, k, val);
      }
      CurrentIffUntouched(c', acts[1..], k, val);
    }
  }

  /** The session and hash checks passed when this process made the read it is about to make. */
  predicate ReadAccepts(s: Store, c: Call, sid: string, val: string)
    requires c.Refresh?
  {
    var n := StepRefresh(s, c, ReadSession(sid, val));
    n.pc == Finished(Failed(DpopFailed)) || (n.pc.AtRefresh? && n.pc.refresh.WriteHash?)
  }

  /**
   * When is a token accepted a second time? One refresh presents the current value of a session and its read
   * accepts it. After any further schedule, another refresh presenting the same token has its read accept it
   * too, if and only if nothing has written that session in between, be it a rotation or a revocation.
   */
  lemma SecondReadAcceptedIff(c: Config, acts: seq<Act>, first: Call, second: Call, sid: string, val: string)
    requires Valid(c) && NeverDrawn(c, acts, val)
    requires first.Refresh? && second.Refresh? && first.tenantId == second.tenantId
    requires ReadAccepts(c.store, first, sid, val)
    ensures ReadAccepts(Exec(c, acts).store, second, sid, val) <==> Untouched(c, acts, Key(first.tenantId, sid))
  {
    CurrentIffUntouched(c, acts, Key(first.tenantId, sid), val);
    ExecGrows(c, acts);
    var m, k := Exec(c, acts).store.sessions, Key(first.tenantId, sid);
    assert m[k].refreshVerHash == Sha256(m[k].refreshVerHash.preimage);
  }

  function TwoRefreshes(r1: Call, r2: Call): seq<Act> {
    [Begin(r1), Begin(r2), Resume(0), Resume(1), Resume(0), Resume(1), Resume(0), Resume(1)]
  }

  lemma ExecCons(c: Config, acts: seq<Act>)
    requires Valid(c) && acts != []
    ensures Exec(c, acts) == Exec(Act1(c, acts[0]), acts[1..])
  {
  }

  /** The refresh token a finished call has returned. */
  function TokenOf(pc: Pc): Option<string> {
    if pc.Finished? && pc.reply.Tokens? then Some(pc.reply.refreshToken) else None
  }

  /**
   * The window is real: from every state with an open session, two overlapping refreshes that both read before
   * either writes each return a new refresh token for the one token presented, and only the later of the two
   * works afterwards.
   */
  lemma OverlapRedeemsTwice(s: Store, t: string, token: string, e1: Env, e2: Env)
    requires Passes(s, t, token)
    requires e1.dpop.NoProof? && e2.dpop.NoProof? && e1.signing.Signs? && e2.signing.Signs?
    requires e1.tokenValue != e2.tokenValue
    ensures var sid := ParseToken(token).value.0;
            var r1, r2 := Refresh(t, token, None, e1), Refresh(t, token, None, e2);
            var c := Exec(Config(s, []), TwoRefreshes(r1, r2));
            && |c.procs| == 2
            && TokenOf(c.procs[0].pc) == Some(TokenText(sid, e1.tokenValue))
            && TokenOf(c.procs[1].pc) == Some(TokenText(sid, e2.tokenValue))
            && Current(c.store.sessions, Key(t, sid)) == Some(e2.tokenValue)
  {
    var sid, val := ParseToken(token).value.0, ParseToken(token).value.1;
    var k, r1, r2 := Key(t, sid), Refresh(t, token, None, e1), Refresh(t, token, None, e2);
    var who := OwnerOf(s, t, s.sessions[k].userId);
    var acts := TwoRefreshes(r1, r2);
    var read := AtRefresh(ReadSession(sid, val));
    var write, sign := AtRefresh(WriteHash(sid, who)), AtRefresh(SignNext(sid, who));
    var c1 := Act1(Config(s, []), acts[0]);
    var c2 := Act1(c1, acts[1]);
    assert c2 == Config(s, [Proc(r1, read), Proc(r2, read)]);
    var c3 := Act1(c2, acts[2]);
    var c4 := Act1(c3, acts[3]);
    assert c4 == Config(s, [Proc(r1, write), Proc(r2, write)]);
    var c5 := Act1(c4, acts[4]);
    var c6 := Act1(c5, acts[5]);
    var s' := RotateSession(RotateSession(s, k, e1), k, e2);
    assert c6 == Config(s', [Proc(r1, sign), Proc(r2, sign)]);
    var c7 := Act1(c6, acts[6]);
    var c8 := Act1(c7, acts[7]);
    assert Exec(Config(s, []), acts) == c8 by {
      ExecCons(Config(s, []), acts);
      ExecCons(c1, acts[1..]);
      ExecCons(c2, acts[2..]);
      ExecCons(c3, acts[3..]);
      ExecCons(c4, acts[4..]);
      ExecCons(c5, acts[5..]);
      ExecCons(c6, acts[6..]);
      ExecCons(c7, acts[7..]);
    }
  }

  // ---------------------------------------------------------------- any number of calls, one token

  /** A refresh works on the session its token names, whatever else is in flight. */
  predicate OnCourse(c: Call, pc: Pc) {
    c.Refresh? ==>
      var p := ParseToken(c.refreshToken);
      match pc
      case AtRefresh(f) => p.Some? && f.sid == p.value.0 && (f.ReadSession? ==> f.val == p.value.1)
      case AtAccess(a) => p.Some? && a.sid == p.value.0 && a.next.ThenSign?
      case AtClose(x) =>
        (match x
         case CloseRows(_, after) => p.Some? && Reported(after, p.value.0)
         case ReportRows(_, after) => p.Some? && Reported(after, p.value.0)
         case ReportHijack(_, sid) => p.Some? && sid == p.value.0
         case _ => false)
      case Finished(r) => r.Tokens? ==> p.Some? && r.refreshToken == TokenText(p.value.0, c.env.tokenValue)
      case _ => false
  }

  predicate Reported(after: AfterClose, sid: string) {
    after == ThenReply(Failed(RevokedSession)) || after == ThenReport(sid)
  }

  lemma AdvanceOnCourse(s: Store, c: Call, pc: Pc)
    requires Fits(c, pc) && OnCourse(c, pc)
    ensures OnCourse(c, Advance(s, c, pc).pc)
  {
  }

  ghost predicate AllOnCourse(c: Config) {
    forall i :: 0 <= i < |c.procs| ==> OnCourse(c.procs[i].call, c.procs[i].pc)
  }

  lemma Act1OnCourse(c: Config, a: Act)
    requires Valid(c) && AllOnCourse(c)
    ensures AllOnCourse(Act1(c, a))
  {
    if a.Resume? && a.i < |c.procs| {
      AdvanceOnCourse(c.store, c.procs[a.i].call, c.procs[a.i].pc);
    }
  }

  /** This refresh has written its new hash. */
  predicate Turned(pc: Pc) {
    match pc
    case AtRefresh(f) => f.SignNext?
    case AtAccess(_) => true
    case Finished(r) => Redeemed(r)
    case _ => false
  }

  /** This refresh found another token's hash and is reporting a hijack, or has reported it. */
  predicate Reuses(pc: Pc) {
    match pc
    case AtRefresh(f) => f.CloseReused?
    case AtClose(x) =>
      || (x.CloseRows? && x.after.ThenReport?)
      || (x.ReportRows? && x.after.ThenReport?)
      || x.ReportHijack?
    case Finished(r) => r == Failed(TokenReuse)
    case _ => false
  }

  predicate IsOpen(m: map<Key, Session>, k: Key) {
    k in m && m[k].revokedAt.None?
  }

  ghost predicate SomeTurned(c: Config, k: Key) {
    exists i :: 0 <= i < |c.procs| && RefreshOf(c.procs[i], k) && Turned(c.procs[i].pc)
  }

  /** A call that presents a token of session `k` presents this value, and draws another one. */
  predicate SameToken(c: Call, k: Key, val: string) {
    Presents(c, k) ==> ParseToken(c.refreshToken).value.1 == val && c.env.tokenValue != val
  }

  /** All calls in progress or to come that present a token of session `k` present the same one. */
  predicate Burst(c: Config, acts: seq<Act>, k: Key, val: string) {
    && (forall i :: 0 <= i < |c.procs| ==> SameToken(c.procs[i].call, k, val))
    && (forall a :: a in acts && a.Begin? ==> SameToken(a.call, k, val))
  }

  /** The session still holds the presented value exactly while none of the calls has written. */
  ghost predicate Unspent(c: Config, k: Key, val: string) {
    k in c.store.sessions && (c.store.sessions[k].refreshVerHash == Sha256(val) <==> !SomeTurned(c, k))
  }

  lemma BurstStep(c: Config, acts: seq<Act>, k: Key, val: string)
    requires Valid(c) && acts != [] && Burst(c, acts, k, val)
    ensures Burst(Act1(c, acts[0]), acts[1..], k, val)
  {
    assert acts[0] in acts;
  }

  /** One database call writes this session's hash exactly when it makes a refresh of the session turn. */
  lemma AdvanceHash(s: Store, c: Call, pc: Pc, k: Key)
    requires Fits(c, pc) && OnCourse(c, pc) && k in s.sessions
    ensures k in Advance(s, c, pc).store.sessions
    ensures Advance(s, c, pc).store.sessions[k].refreshVerHash
         == if Rotates(c, pc, k) then Sha256(c.env.tokenValue) else s.sessions[k].refreshVerHash
  {
    match pc
    case AtLogin(_) =>
    case AtRefresh(_) =>
    case AtClose(_) =>
    case _ => OthersKeepSessions(s, c, pc);
  }

  lemma AdvanceTurned(s: Store, c: Call, pc: Pc, k: Key)
    requires Fits(c, pc) && OnCourse(c, pc) && k in s.sessions
    ensures Presents(c, k) ==> (Turned(Advance(s, c, pc).pc) <==> Turned(pc) || Rotates(c, pc, k))
    ensures Rotates(c, pc, k) ==> Presents(c, k)
  {
  }

  lemma Act1Unspent(c: Config, a: Act, k: Key, val: string)
    requires Valid(c) && AllOnCourse(c) && Unspent(c, k, val) && Burst(c, [a], k, val)
    ensures Unspent(Act1(c, a), k, val)
  {
    var c' := Act1(c, a);
    if a.Resume? && a.i < |c.procs| {
      var p := c.procs[a.i];
      AdvanceHash(c.store, p.call, p.pc, k);
      AdvanceTurned(c.store, p.call, p.pc, k);
      if RefreshOf(p, k) && (Turned(p.pc) || Rotates(p.call, p.pc, k)) {
        assert RefreshOf(c'.procs[a.i], k) && Turned(c'.procs[a.i].pc);
      }
      if SomeTurned(c, k) {
        var i :| 0 <= i < |c.procs| && RefreshOf(c.procs[i], k) && Turned(c.procs[i].pc);
        assert RefreshOf(c'.procs[i], k) && Turned(c'.procs[i].pc);
      }
    } else if SomeTurned(c, k) {
      var i :| 0 <= i < |c.procs| && RefreshOf(c.procs[i], k) && Turned(c.procs[i].pc);
      assert c'.procs[i] == c.procs[i];
    }
  }

  /** Call `j` reads the session while it is open and after another of the calls has written its hash. */
  ghost predicate ReadsLate(c: Config, a: Act, j: nat, k: Key) {
    && a == Resume(j) && j < |c.procs|
    && RefreshOf(c.procs[j], k) && c.procs[j].pc.AtRefresh? && c.procs[j].pc.refresh.ReadSession?
    && IsOpen(c.store.sessions, k)
    && SomeTurned(c, k)
  }

  ghost predicate LateRead(c: Config, acts: seq<Act>, j: nat, k: Key)
    requires Valid(c)
    decreases acts
  {
    acts != [] && (ReadsLate(c, acts[0], j, k) || LateRead(Act1(c, acts[0]), acts[1..], j, k))
  }

  lemma Act1Reuses(c: Config, a: Act, j: nat, k: Key, val: string)
    requires Valid(c) && AllOnCourse(c) && Unspent(c, k, val) && Burst(c, [a], k, val)
    requires j < |Act1(c, a).procs| && RefreshOf(Act1(c, a).procs[j], k)
    ensures Reuses(Act1(c, a).procs[j].pc)
            <==> (j < |c.procs| && Reuses(c.procs[j].pc)) || ReadsLate(c, a, j, k)
  {
  }

  /** The call a process makes never changes. */
  lemma {:induction false} ExecKeepsCalls(c: Config, acts: seq<Act>, j: nat)
    requires Valid(c) && j < |c.procs|
    ensures j < |Exec(c, acts).procs| && Exec(c, acts).procs[j].call == c.procs[j].call
    decreases acts
  {
    if acts != [] {
      ExecKeepsCalls(Act1(c, acts[0]), acts[1..], j);
    }
  }

  /**
   * Any number of overlapping calls present the same token of one session, as a client does that refreshes from
   * several requests at a time; other calls do as they like. A call takes the reuse branch, and if it finishes
   * reports a hijack, exactly when it reads the session after another of them has written it and before the session
   * is revoked.
   */
  lemma {:induction false} OverlapReportsIff(c: Config, acts: seq<Act>, j: nat, k: Key, val: string)
    requires Valid(c) && AllOnCourse(c) && Unspent(c, k, val) && Burst(c, acts, k, val)
    requires j < |Exec(c, acts).procs| && RefreshOf(Exec(c, acts).procs[j], k)
    requires j < |c.procs| ==> !Reuses(c.procs[j].pc)
    ensures Reuses(Exec(c, acts).procs[j].pc) <==> LateRead(c, acts, j, k)
    decreases acts
  {
    if acts != [] {
      var c' := Act1(c, acts[0]);
      assert Burst(c, [acts[0]], k, val) by {
        assert acts[0] in acts;
      }
      BurstStep(c, acts, k, val);
      Act1OnCourse(c, acts[0]);
      Act1Unspent(c, acts[0], k, val);
      if j < |c'.procs| {
        ExecKeepsCalls(c', acts[1..], j);
        Act1Reuses(c, acts[0], j, k, val);
        if Reuses(c'.procs[j].pc) {
          StaysReused(c', acts[1..], j, k);
        } else {
          OverlapReportsIff(c', acts[1..], j, k, val);
        }
      } else {
        OverlapReportsIff(c', acts[1..], j, k, val);
      }
    }
  }

  lemma {:induction false} StaysReused(c: Config, acts: seq<Act>, j: nat, k: Key)
    requires Valid(c) && AllOnCourse(c) && j < |c.procs| && RefreshOf(c.procs[j], k) && Reuses(c.procs[j].pc)
    requires k in c.store.sessions
    ensures j < |Exec(c, acts).procs| && Reuses(Exec(c, acts).procs[j].pc)
    ensures !LateRead(c, acts, j, k)
    decreases acts
  {
    if acts != [] {
      var p := c.procs[j];
      Act1OnCourse(c, acts[0]);
      Act1Grows(c, acts[0]);
      StaysReused(Act1(c, acts[0]), acts[1..], j, k);
    }
  }

  // ---------------------------------------------------------------- accesses and revocation

  lemma AdvanceOpen(s: Store, c: Call, pc: Pc, k: Key)
    requires Fits(c, pc) && k in s.sessions
    ensures IsOpen(Advance(s, c, pc).store.sessions, k)
            <==> IsOpen(s.sessions, k) && !Closes(s.sessions, c, pc, k)
  {
    match pc
    case AtClose(x) => CloseCurrent(s, c, x, k);
    case AtLogin(_) =>
    case AtRefresh(_) =>
    case _ => OthersKeepSessions(s, c, pc);
  }

  predicate ActCloses(c: Config, a: Act, k: Key) {
    a.Resume? && a.i < |c.procs| && Closes(c.store.sessions, c.procs[a.i].call, c.procs[a.i].pc, k)
  }

  /** Some step of the schedule writes the revocation of session `k`. */
  predicate ClosedDuring(c: Config, acts: seq<Act>, k: Key)
    requires Valid(c)
    decreases acts
  {
    acts != [] && (ActCloses(c, acts[0], k) || ClosedDuring(Act1(c, acts[0]), acts[1..], k))
  }

  /** A session is open after a schedule exactly when it was open before it and no step closed it. */
  lemma {:induction false} OpenIffUnclosed(c: Config, acts: seq<Act>, k: Key)
    requires Valid(c) && k in c.store.sessions
    ensures IsOpen(Exec(c, acts).store.sessions, k) <==> IsOpen(c.store.sessions, k) && !ClosedDuring(c, acts, k)
    decreases acts
  {
    if acts != [] {
      Act1Grows(c, acts[0]);
      if acts[0].Resume? && acts[0].i < |c.procs| {
        AdvanceOpen(c.store, c.procs[acts[0].i].call, c.procs[acts[0].i].pc, k);
      }
      OpenIffUnclosed(Act1(c, acts[0]), acts[1..], k);
    }
  }

  /**
   * The next database call of this process is the one on which it relies for session `k` being open, and succeeds:
   * a consent or a refresh reads an open session, a login inserts one.
   */
  predicate Checks(s: Store, c: Call, pc: Pc, k: Key)
    requires Fits(c, pc)
  {
    match pc
    case AtConsent => Key(c.tenantId, c.sessionId) == k && StepConsent(s, c).pc.AtAccess?
    case AtRefresh(f) =>
      && f.ReadSession? && Key(c.tenantId, f.sid) == k
      && StepRefresh(s, c, f).pc.AtRefresh? && StepRefresh(s, c, f).pc.refresh.WriteHash?
    case AtLogin(l) =>
      && l.AddSession? && Key(c.tenantId, c.env.sessionId) == k
      && SessionAdmitted(s, c.tenantId, l.who.userId, Truthy(c.clientId), c.env)
    case _ => false
  }

  /** The access row the next database call of this process adds, if it adds one. */
  function AddedAccess(s: Store, c: Call, pc: Pc): (r: Option<Access>)
    requires Fits(c, pc)
    ensures Advance(s, c, pc).store.accesses == s.accesses + (if r.Some? then {r.value} else {})
    ensures r.Some? ==> r.value !in s.accesses
  {
    match pc
    case AtAccess(AddAccess(sid, _, cl, _)) =>
      if Access(c.tenantId, sid, cl) in s.accesses || Key(c.tenantId, cl) !in s.clients then None
      else Some(Access(c.tenantId, sid, cl))
    case AtLogin(AddFirstAccess(_, cl)) =>
      if Access(c.tenantId, c.env.sessionId, cl) in s.accesses then None
      else Some(Access(c.tenantId, c.env.sessionId, cl))
    case _ => None
  }

  /**
   * When does an access land on a revoked session? Process `i` has made its check of session `k` and goes on to
   * add an access to it, after any schedule. The session the access is added to is revoked if and only if some
   * step since the check revoked it, and this for consent, refresh and login alike.
   */
  lemma LandsOnRevokedIff(c: Config, i: nat, acts: seq<Act>, k: Key)
    requires Valid(c) && i < |c.procs| && Checks(c.store, c.procs[i].call, c.procs[i].pc, k)
    requires var c' := Exec(Act1(c, Resume(i)), acts);
             && i < |c'.procs|
             && AddedAccess(c'.store, c'.procs[i].call, c'.procs[i].pc).Some?
             && AddedAccess(c'.store, c'.procs[i].call, c'.procs[i].pc).value.tenantId == k.tenantId
             && AddedAccess(c'.store, c'.procs[i].call, c'.procs[i].pc).value.sessionId == k.id
    ensures var done := Act1(Exec(Act1(c, Resume(i)), acts), Resume(i)).store;
            k in done.sessions
            && (done.sessions[k].revokedAt.Some? <==> ClosedDuring(Act1(c, Resume(i)), acts, k))
  {
    var c1 := Act1(c, Resume(i));
    assert IsOpen(c1.store.sessions, k);
    OpenIffUnclosed(c1, acts, k);
    ExecGrows(c1, acts);
    var c' := Exec(c1, acts);
  }

  function ConsentThenRevoke(consent: Call, revoke: Call): seq<Act> {
    [Begin(consent), Begin(revoke), Resume(0), Resume(0), Resume(1), Resume(1), Resume(0)]
  }

  /**
   * That no access is added to a revoked session holds for uninterrupted calls only: from every state with an open
   * session and a product it has not accessed, a consent that reads the session before a revocation and writes
   * after it adds the access to the revoked session.
   */
  lemma ConsentRacesRevocation(s: Store, t: string, sid: string, cl: string, now: int)
    requires Key(t, sid) in s.sessions && s.sessions[Key(t, sid)].revokedAt.None?
    requires Key(t, cl) in s.clients && Access(t, sid, cl) !in s.accesses
    ensures var u := s.sessions[Key(t, sid)].userId;
            var c := Exec(Config(s, []), ConsentThenRevoke(Consent(t, u, sid, cl), RevokeOne(t, u, sid, now)));
            && Access(t, sid, cl) in c.store.accesses
            && Key(t, sid) in c.store.sessions && c.store.sessions[Key(t, sid)].revokedAt.Some?
  {
    var k, u := Key(t, sid), s.sessions[Key(t, sid)].userId;
    var consent, revoke := Consent(t, u, sid, cl), RevokeOne(t, u, sid, now);
    var acts, who := ConsentThenRevoke(consent, revoke), Subject(u, None, None);
    var c0 := Config(s, []);
    var c1 := Act1(c0, acts[0]);
    var c2 := Act1(c1, acts[1]);
    var c3 := Act1(c2, acts[2]);
    var c4 := Act1(c3, acts[3]);
    assert c4 == Config(s, [Proc(consent, AtAccess(AddAccess(sid, who, cl, ThenDone))),
                            Proc(revoke, AtClose(ReadOwner))]);
    var c5 := Act1(c4, acts[4]);
    var c6 := Act1(c5, acts[5]);
    assert c6.store == CloseSession(s, k, now);
    var c7 := Act1(c6, acts[6]);
    assert Exec(c0, acts) == c7 by {
      ExecCons(c0, acts);
      ExecCons(c1, acts[1..]);
      ExecCons(c2, acts[2..]);
      ExecCons(c3, acts[3..]);
      ExecCons(c4, acts[4..]);
      ExecCons(c5, acts[5..]);
      ExecCons(c6, acts[6..]);
    }
  }

  function RefreshThenRevoke(refresh: Call, revoke: Call): seq<Act> {
    [Begin(refresh), Begin(revoke), Resume(0), Resume(0), Resume(0), Resume(1), Resume(1), Resume(0)]
  }

  /** The same happens to a refresh: it reads, rotates, the session is revoked, and then it adds the access. */
  lemma RefreshRacesRevocation(s: Store, t: string, token: string, cl: string, e: Env)
    requires Passes(s, t, token) && !e.dpop.BadProof? && cl != ""
    requires Key(t, cl) in s.clients && Access(t, ParseToken(token).value.0, cl) !in s.accesses
    ensures var k := Key(t, ParseToken(token).value.0);
            var c := Exec(Config(s, []), RefreshThenRevoke(Refresh(t, token, Some(cl), e),
                                                           RevokeOne(t, s.sessions[k].userId, k.id, e.now)));
            && Access(t, k.id, cl) in c.store.accesses
            && k in c.store.sessions && c.store.sessions[k].revokedAt.Some?
  {
    var sid, val := ParseToken(token).value.0, ParseToken(token).value.1;
    var k := Key(t, sid);
    var u := s.sessions[k].userId;
    var refresh, revoke, who := Refresh(t, token, Some(cl), e), RevokeOne(t, u, sid, e.now), OwnerOf(s, t, u);
    var acts := RefreshThenRevoke(refresh, revoke);
    var c1 := Act1(Config(s, []), acts[0]);
    var c2 := Act1(c1, acts[1]);
    assert c2 == Config(s, [Proc(refresh, AtRefresh(ReadSession(sid, val))), Proc(revoke, AtClose(ReadOwner))]);
    var c3 := Act1(c2, acts[2]);
    var c4 := Act1(c3, acts[3]);
    var c5 := Act1(c4, acts[4]);
    var s' := RotateSession(s, k, e);
    assert c5 == Config(s', [Proc(refresh, AtAccess(AddAccess(sid, who, cl, ThenSign))),
                             Proc(revoke, AtClose(ReadOwner))]);
    var c6 := Act1(c5, acts[5]);
    var c7 := Act1(c6, acts[6]);
    assert c7.store == CloseSession(s', k, e.now);
    var c8 := Act1(c7, acts[7]);
    assert Exec(Config(s, []), acts) == c8 by {
      ExecCons(Config(s, []), acts);
      ExecCons(c1, acts[1..]);
      ExecCons(c2, acts[2..]);
      ExecCons(c3, acts[3..]);
      ExecCons(c4, acts[4..]);
      ExecCons(c5, acts[5..]);
      ExecCons(c6, acts[6..]);
      ExecCons(c7, acts[7..]);
    }
  }

  function LoginThenRevoke(login: Call, revoke: Call): seq<Act> {
    [Begin(login), Begin(revoke), Resume(0), Resume(1), Resume(0)]
  }

  /** And to a login whose session is revoked before its first access is recorded. */
  lemma LoginRacesRevocation(s: Store, t: string, u: string, cl: string, e: Env)
    requires !e.dpop.BadProof? && cl != "" && SessionAdmitted(s, t, u, Some(cl), e)
    requires Access(t, e.sessionId, cl) !in s.accesses
    ensures var k := Key(t, e.sessionId);
            var c := Exec(Config(s, []), LoginThenRevoke(CreateSession(t, u, None, None, Some(cl), e),
                                                         RevokeAll(t, u, e.now)));
            && Access(t, k.id, cl) in c.store.accesses
            && k in c.store.sessions && c.store.sessions[k].revokedAt.Some?
  {
    var login, revoke := CreateSession(t, u, None, None, Some(cl), e), RevokeAll(t, u, e.now);
    var acts, who := LoginThenRevoke(login, revoke), Subject(u, None, None);
    var c0 := Config(s, []);
    var c1 := Act1(c0, acts[0]);
    var c2 := Act1(c1, acts[1]);
    assert c2 == Config(s, [Proc(login, AtLogin(AddSession(who, None))),
                            Proc(revoke, AtClose(CloseRows(u, ThenReply(Success))))]);
    var c3 := Act1(c2, acts[2]);
    assert c3.store == InsertSession(s, t, u, None, Some(cl), e);
    var c4 := Act1(c3, acts[3]);
    var c5 := Act1(c4, acts[4]);
    assert Exec(c0, acts) == c5 by {
      ExecCons(c0, acts);
      ExecCons(c1, acts[1..]);
      ExecCons(c2, acts[2..]);
      ExecCons(c3, acts[3..]);
      ExecCons(c4, acts[4..]);
    }
  }
}
