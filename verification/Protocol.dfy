/**
 * Clients and server together, with everything in flight at the same time: each client runs its own operations one
 * at a time, but while it waits for an answer the server makes single database calls for any number of clients and
 * other callers, in any order. An operation of a client is a sequence of hops: it sends a request, the server works
 * on it or not, and the answer arrives or is lost.
 */
module Protocol {
  import opened Text
  import opened Tables
  import opened SessionSpec
  import opened SessionEffects
  import opened ClientSpec
  import opened Interleaving
  import opened Concurrency
  import Crash

  // ---------------------------------------------------------------- what is assumed and what is claimed

  /** Generated session ids and random values are UUIDs and hex: neither contains a colon. */
  predicate Generated(e: Env) {
    ':' !in e.sessionId && ':' !in e.tokenValue
  }

  predicate NotRefresh(request: Option<Call>) {
    request.Some? ==> !request.value.Refresh?
  }

  /** The row is revoked, or its current token has this value. */
  predicate Agrees(row: Session, val: string) {
    row.revokedAt.Some? || row.refreshVerHash == Sha256(val)
  }

  /** A stored refresh token is well formed, names a session, and is its current token unless it is revoked. */
  predicate InStep(m: map<Key, Session>, cl: Client) {
    cl.refresh.Some? ==>
      && ParseToken(cl.refresh.value).Some?
      && Key(cl.tenantId, ParseToken(cl.refresh.value).value.0) in m
      && Agrees(m[Key(cl.tenantId, ParseToken(cl.refresh.value).value.0)], ParseToken(cl.refresh.value).value.1)
  }

  predicate NoHijack(outbox: seq<OutboxRow>) {
    forall r :: r in outbox ==> !r.event.SessionHijackDetected?
  }

  /** From one table to another, sessions other than `except` keep their value or are revoked. */
  predicate KeepsValues(m: map<Key, Session>, m': map<Key, Session>, except: Option<Key>) {
    forall k :: k in m && Some(k) != except ==>
      k in m' && (m'[k].revokedAt.Some? || (m[k].revokedAt.None? && m'[k].refreshVerHash == m[k].refreshVerHash))
  }

  // ---------------------------------------------------------------- one client

  /** What `authenticatedFetch` was called for: a request, and whether the tokens go at the end, as in `logoutAll`. */
  datatype Errand = Errand(request: Option<Call>, leaving: bool)

  /** Where a client's code is; `p` is the service call whose answer it waits for, if its request reached one. */
  datatype Phase =
    | Idle
    | SigningIn(p: nat)
    | Leaving(p: nat)
    | Asking(reached: Option<nat>, errand: Errand)
    | Expired(errand: Errand)
    | Renewing(p: nat, after: Option<Errand>)
    | Renewed(errand: Errand)
    | Retrying(reached: Option<nat>, errand: Errand)

  datatype Agent = Agent(client: Client, phase: Phase)

  datatype Flight = Flight(server: Config, agents: seq<Agent>)

  datatype Hop =
    | SendSignIn(i: nat, call: Call)
    | SendRefresh(i: nat, env: Env, sent: bool)
    | SendLogout(i: nat, now: int)
    | SendRequest(i: nat, errand: Errand, reaches: bool)
    | SendAgain(i: nat, reaches: bool)
    | Receive(i: nat, turnedAway: bool)
    | Lose(i: nat)
    | Serve(j: nat)           // a service call in progress makes its next database call
    | OtherCall(call: Call)   // any other caller of the services

  // ---------------------------------------------------------------- the client's code between its requests

  /** The end of an operation; `logoutAll` forgets the tokens in any case. */
  function Ended(cl: Client, er: Option<Errand>): Agent {
    Agent(if er.Some? && er.value.leaving then Forget(cl) else cl, Idle)
  }

  function ReplyOf(procs: seq<Proc>, p: nat): Option<Reply> {
    if p < |procs| && procs[p].pc.Finished? then Some(procs[p].pc.reply) else None
  }

  /** The service call a client's next request makes, and the client having sent it; `n` is that call's number. */
  function Send(a: Agent, h: Hop, n: nat): (Option<Call>, Agent) {
    match h
    case SendSignIn(_, c) => if a.phase.Idle? then (Some(c), a.(phase := SigningIn(n))) else (None, a)
    case SendRefresh(_, e, sent) =>
      if a.phase.Idle? then SendToken(a, None, e, sent, n)
      else if a.phase.Expired? then SendToken(a, Some(a.phase.errand), e, sent, n)
      else (None, a)
    case SendLogout(_, now) =>
      if !a.phase.Idle? || Truthy(a.client.refresh).None? then (None, a)
      else (Some(Revoke(a.client.tenantId, a.client.refresh.value, now)), a.(phase := Leaving(n)))
    case SendRequest(_, er, reaches) =>
      if !a.phase.Idle? then (None, a)
      else if a.client.access.None? then (None, Ended(a.client, Some(er)))
      else if reaches && er.request.Some? then (er.request, a.(phase := Asking(Some(n), er)))
      else (None, a.(phase := Asking(None, er)))
    case SendAgain(_, reaches) =>
      if !a.phase.Renewed? then (None, a)
      else if reaches && a.phase.errand.request.Some?
      then (a.phase.errand.request, a.(phase := Retrying(Some(n), a.phase.errand)))
      else (None, a.(phase := Retrying(None, a.phase.errand)))
    case _ => (None, a)
  }

  /** `refresh` up to its request; without a stored token, or when the request cannot be sent, it throws. */
  function SendToken(a: Agent, er: Option<Errand>, e: Env, sent: bool, n: nat): (Option<Call>, Agent) {
    match Truthy(a.client.refresh)
    case None => (None, Ended(a.client, er))
    case Some(token) =>
      if !sent then (None, Ended(a.client, er))
      else (Some(Refresh(a.client.tenantId, token, a.client.clientId, e)), a.(phase := Renewing(n, er)))
  }

  /** What a client makes of the answer it waits for; nothing happens while the answer is not there. */
  function Take(procs: seq<Proc>, a: Agent, turnedAway: bool): Agent {
    match a.phase
    case SigningIn(p) =>
      (match ReplyOf(procs, p)
       case None => a
       case Some(Tokens(x, r)) => Agent(Keep(a.client, x, r), Idle)
       case Some(_) => Agent(a.client, Idle))
    case Leaving(p) => if ReplyOf(procs, p).Some? then Agent(Forget(a.client), Idle) else a
    case Asking(None, er) => if turnedAway then a.(phase := Expired(er)) else Ended(a.client, Some(er))
    case Asking(Some(p), er) =>
      (match ReplyOf(procs, p)
       case None => a
       case Some(r) => if Unauthorized(r) then a.(phase := Expired(er)) else Ended(a.client, Some(er)))
    case Renewing(p, er) =>
      (match ReplyOf(procs, p)
       case None => a
       case Some(Tokens(x, r)) =>
         if er.Some? then Agent(Keep(a.client, x, r), Renewed(er.value)) else Agent(Keep(a.client, x, r), Idle)
       case Some(_) => Ended(Forget(a.client), er))
    case Retrying(reached, er) =>
      if reached.Some? && ReplyOf(procs, reached.value).None? then a else Ended(a.client, Some(er))
    case _ => a
  }

  /** The awaited `fetch` throws: the request or its answer got lost. */
  function GiveUp(a: Agent): Agent {
    match a.phase
    case SigningIn(_) => Agent(a.client, Idle)
    case Leaving(_) => Agent(Forget(a.client), Idle)
    case Asking(_, er) => Ended(a.client, Some(er))
    case Renewing(_, er) => Ended(a.client, er)
    case Retrying(_, er) => Ended(a.client, Some(er))
    case _ => a
  }

  /** A hop of one client. */
  function ClientHop(f: Flight, h: Hop): (f': Flight)
    requires Valid(f.server) && !h.Serve? && !h.OtherCall? && h.i < |f.agents|
    ensures Valid(f'.server)
  {
    var a := f.agents[h.i];
    if h.Receive? then f.(agents := f.agents[h.i := Take(f.server.procs, a, h.turnedAway)])
    else if h.Lose? then f.(agents := f.agents[h.i := GiveUp(a)])
    else
      var sent := Send(a, h, |f.server.procs|);
      Flight(if sent.0.Some? then Act1(f.server, Begin(sent.0.value)) else f.server, f.agents[h.i := sent.1])
  }

  function Hop1(f: Flight, h: Hop): (f': Flight)
    requires Valid(f.server)
    ensures Valid(f'.server)
  {
    if h.Serve? then f.(server := Act1(f.server, Resume(h.j)))
    else if h.OtherCall? then f.(server := Act1(f.server, Begin(h.call)))
    else if h.i < |f.agents| then ClientHop(f, h)
    else f
  }

  function Fly(f: Flight, hs: seq<Hop>): (f': Flight)
    requires Valid(f.server)
    ensures Valid(f'.server)
    decreases hs
  {
    if hs == [] then f else Fly(Hop1(f, hs[0]), hs[1..])
  }

  /** The refresh may still read or write its session. */
  predicate Live(pc: Pc) {
    pc.AtRefresh? || pc.AtAccess?
  }

  /**
   * The assumptions: a client signs in with a login call of its own tenant; refresh tokens are presented only by the
   * clients that store them; and when the answer to a refresh gets lost, the server had refused to rotate, or the
   * client was about to forget its tokens anyway.
   */
  predicate Fair(f: Flight, h: Hop) {
    match h
    case SendSignIn(i, c) =>
      (c.Login? || c.CreateSession?) && Generated(c.env)
      && (i < |f.agents| ==> c.tenantId == f.agents[i].client.tenantId)
    case SendRefresh(_, e, _) => Generated(e)
    case SendRequest(_, er, _) => NotRefresh(er.request)
    case Lose(i) =>
      i < |f.agents| && f.agents[i].phase.Renewing? ==>
        var p, er := f.agents[i].phase.p, f.agents[i].phase.after;
        && p < |f.server.procs| && !Live(f.server.procs[p].pc)
        && (!Turned(f.server.procs[p].pc) || (er.Some? && er.value.leaving))
    case OtherCall(c) => !c.Refresh?
    case _ => true
  }

  predicate FairFlight(f: Flight, hs: seq<Hop>)
    requires Valid(f.server)
    decreases hs
  {
    hs == [] || (Fair(f, hs[0]) && FairFlight(Hop1(f, hs[0]), hs[1..]))
  }

  // ---------------------------------------------------------------- the joint invariant

  /** The session a stored token names, with the value it has for it. */
  function Held(cl: Client): map<Key, string> {
    if cl.refresh.Some? && ParseToken(cl.refresh.value).Some?
    then map[Key(cl.tenantId, ParseToken(cl.refresh.value).value.0) := ParseToken(cl.refresh.value).value.1]
    else map[]
  }

  /** A login that has inserted its session and not failed since. */
  predicate Opened(p: Proc) {
    && (p.call.Login? || p.call.CreateSession?)
    && match p.pc
       case AtLogin(l) => l.AddFirstAccess? || l.AuditFirstAccess? || l.SignFirst? || l.ReportOpened?
       case Finished(r) => r.Tokens?
       case _ => false
  }

  function OpenedKey(c: Call): Key
    requires c.Login? || c.CreateSession?
  {
    Key(c.tenantId, c.env.sessionId)
  }

  /** The value a refresh expects in its session: the presented one, and the drawn one once it has written it. */
  function Due(p: Proc): map<Key, string> {
    if p.call.Refresh? && ParseToken(p.call.refreshToken).Some?
    then var q := ParseToken(p.call.refreshToken).value;
         map[Key(p.call.tenantId, q.0) := if Turned(p.pc) then p.call.env.tokenValue else q.1]
    else map[]
  }

  /** The sessions an agent relies on, each with the value it must have unless it is revoked. */
  function Claim(procs: seq<Proc>, a: Agent): map<Key, string> {
    match a.phase
    case Renewing(p, _) => if p < |procs| then Due(procs[p]) else map[]
    case SigningIn(p) =>
      if p < |procs| && Opened(procs[p])
      then Held(a.client)[OpenedKey(procs[p].call) := procs[p].call.env.tokenValue] else Held(a.client)
    case _ => Held(a.client)
  }

  predicate Honoured(m: map<Key, Session>, claim: map<Key, string>) {
    forall k :: k in claim ==> k in m && Agrees(m[k], claim[k])
  }

  function Awaits(a: Agent): Option<nat> {
    match a.phase
    case SigningIn(p) => Some(p)
    case Leaving(p) => Some(p)
    case Renewing(p, _) => Some(p)
    case Asking(reached, _) => reached
    case Retrying(reached, _) => reached
    case _ => None
  }

  function ErrandOf(a: Agent): Option<Call> {
    match a.phase
    case Asking(_, er) => er.request
    case Expired(er) => er.request
    case Renewing(_, Some(er)) => er.request
    case Renewed(er) => er.request
    case Retrying(_, er) => er.request
    case _ => None
  }

  /** The call an agent waits for is the one its code made. */
  predicate Wired(procs: seq<Proc>, a: Agent) {
    && (a.client.refresh.Some? ==> ParseToken(a.client.refresh.value).Some?)
    && NotRefresh(ErrandOf(a))
    && (Awaits(a).Some? ==> Awaits(a).value < |procs| && Made(procs[Awaits(a).value], a))
  }

  predicate Made(p: Proc, a: Agent) {
    match a.phase
    case SigningIn(_) =>
      && (p.call.Login? || p.call.CreateSession?)
      && p.call.tenantId == a.client.tenantId && Generated(p.call.env)
      && (Opened(p) ==> OpenedKey(p.call) !in Held(a.client))
      && (p.pc.Finished? && p.pc.reply.Tokens? ==>
            p.pc.reply.refreshToken == TokenText(p.call.env.sessionId, p.call.env.tokenValue))
    case Renewing(_, _) =>
      && p.call.Refresh? && a.client.refresh == Some(p.call.refreshToken)
      && p.call.tenantId == a.client.tenantId && Generated(p.call.env)
    case _ => !p.call.Refresh?
  }

  ghost predicate Awaited(agents: seq<Agent>, j: nat) {
    exists i :: 0 <= i < |agents| && agents[i].phase.Renewing? && agents[i].phase.p == j
  }

  /** No refresh is on its way to reporting a hijack, and none that may still touch its session was given up. */
  ghost predicate ServerCalm(f: Flight) {
    && Valid(f.server) && AllOnCourse(f.server)
    && NoHijack(f.server.store.outbox)
    && (forall j :: 0 <= j < |f.server.procs| && f.server.procs[j].call.Refresh? ==> !Reuses(f.server.procs[j].pc))
    && (forall j :: 0 <= j < |f.server.procs| && f.server.procs[j].call.Refresh? && Live(f.server.procs[j].pc)
          ==> Awaited(f.agents, j))
  }

  /** Every agent's claim is honoured, and no two agents rely on the same session or wait for the same call. */
  ghost predicate ClaimsGood(f: Flight) {
    && (forall i :: 0 <= i < |f.agents| ==> Wired(f.server.procs, f.agents[i]))
    && (forall i :: 0 <= i < |f.agents| ==> Honoured(f.server.store.sessions, Claim(f.server.procs, f.agents[i])))
    && (forall i, j :: 0 <= i < |f.agents| && 0 <= j < |f.agents| && i != j ==>
          && Claim(f.server.procs, f.agents[i]).Keys !! Claim(f.server.procs, f.agents[j]).Keys
          && (Awaits(f.agents[i]).Some? ==> Awaits(f.agents[i]) != Awaits(f.agents[j])))
  }

  ghost predicate InFlight(f: Flight) {
    ServerCalm(f) && ClaimsGood(f)
  }

  // ---------------------------------------------------------------- one database call

  /** The session whose hash the next database call of this process writes. */
  function Written(c: Call, pc: Pc): Option<Key> {
    if pc.AtRefresh? && pc.refresh.WriteHash? then Some(Key(c.tenantId, pc.refresh.sid)) else None
  }

  lemma CloseKeepsValues(s: Store, c: Call, pc: ClosePc)
    requires CloseFits(c, pc)
    ensures KeepsValues(s.sessions, StepClose(s, c, pc).store.sessions, None)
  {
  }

  /** A database call writes no hash but that of the session its own token names. */
  lemma AdvanceKeepsValues(s: Store, c: Call, pc: Pc)
    requires Fits(c, pc)
    ensures KeepsValues(s.sessions, Advance(s, c, pc).store.sessions, Written(c, pc))
  {
    match pc
    case AtLogin(_) =>
    case AtRefresh(_) =>
    case AtClose(x) => CloseKeepsValues(s, c, x);
    case _ => OthersKeepSessions(s, c, pc);
  }

  lemma ClaimKept(m: map<Key, Session>, m': map<Key, Session>, except: Option<Key>, claim: map<Key, string>)
    requires Honoured(m, claim) && KeepsValues(m, m', except)
    requires except.Some? ==> except.value !in claim
    ensures Honoured(m', claim)
  {
  }

  /** A refresh that finds what it expects goes on finding it, whatever the others have revoked. */
  lemma RefreshKeepsDue(s: Store, p: Proc)
    requires p.call.Refresh? && Fits(p.call, p.pc) && OnCourse(p.call, p.pc) && !Reuses(p.pc)
    requires Honoured(s.sessions, Due(p))
    ensures var n := Advance(s, p.call, p.pc);
            !Reuses(n.pc) && Honoured(n.store.sessions, Due(p.(pc := n.pc)))
  {
    var q := ParseToken(p.call.refreshToken);
    if q.Some? {
      var k := Key(p.call.tenantId, q.value.0);
      assert k in Due(p) && k in s.sessions;
      AdvanceTurned(s, p.call, p.pc, k);
      AdvanceHash(s, p.call, p.pc, k);
      AdvanceGrows(s, p.call, p.pc);
    }
  }

  /** A login relies on a key nobody else can know, from the moment it inserts the row. */
  lemma LoginOpens(s: Store, p: Proc)
    requires (p.call.Login? || p.call.CreateSession?) && Fits(p.call, p.pc)
    ensures var n, k := Advance(s, p.call, p.pc), OpenedKey(p.call);
            Opened(p.(pc := n.pc)) && !Opened(p) ==>
              k !in s.sessions && k in n.store.sessions && Agrees(n.store.sessions[k], p.call.env.tokenValue)
  {
  }

  lemma LoginToken(s: Store, p: Proc)
    requires (p.call.Login? || p.call.CreateSession?) && Fits(p.call, p.pc)
    ensures var n := Advance(s, p.call, p.pc);
            n.pc.Finished? && n.pc.reply.Tokens? ==>
              n.pc == p.pc || n.pc.reply.refreshToken == TokenText(p.call.env.sessionId, p.call.env.tokenValue)
  {
  }

  lemma AdvanceNoHijack(s: Store, c: Call, pc: Pc)
    requires Fits(c, pc) && NoHijack(s.outbox)
    requires c.Refresh? ==> !Reuses(pc)
    ensures NoHijack(Advance(s, c, pc).store.outbox)
  {
    Crash.AdvanceOutbox(s, c, pc);
  }

  /** A live refresh is some agent's, and no other agent relies on its session. */
  lemma WriteIsOwn(f: Flight, j: nat, i: nat)
    requires InFlight(f) && i < |f.agents| && j < |f.server.procs| && Awaits(f.agents[i]) != Some(j)
    requires f.server.procs[j].pc.AtRefresh?
    ensures Key(f.server.procs[j].call.tenantId, f.server.procs[j].pc.refresh.sid)
            !in Claim(f.server.procs, f.agents[i])
  {
    var p := f.server.procs[j];
    assert p.call.Refresh? && Live(p.pc) && OnCourse(p.call, p.pc);
    var w :| 0 <= w < |f.agents| && f.agents[w].phase.Renewing? && f.agents[w].phase.p == j;
    assert Key(p.call.tenantId, p.pc.refresh.sid) in Claim(f.server.procs, f.agents[w]);
  }

  lemma OthersCallMoves(procs: seq<Proc>, j: nat, p: Proc, a: Agent)
    requires j < |procs| && Awaits(a) != Some(j) && Wired(procs, a)
    ensures Wired(procs[j := p], a) && Claim(procs[j := p], a) == Claim(procs, a)
  {
  }

  /** The frame for one agent: what a database call of process `j` does to the sessions it relies on. */
  lemma BystanderServed(f: Flight, j: nat, i: nat)
    requires InFlight(f) && i < |f.agents| && j < |f.server.procs| && Awaits(f.agents[i]) != Some(j)
    ensures var f', a := Hop1(f, Serve(j)), f.agents[i];
            && Wired(f'.server.procs, a)
            && Claim(f'.server.procs, a) == Claim(f.server.procs, a)
            && Honoured(f'.server.store.sessions, Claim(f'.server.procs, a))
  {
    var p, a, f' := f.server.procs[j], f.agents[i], Hop1(f, Serve(j));
    OthersCallMoves(f.server.procs, j, p.(pc := Advance(f.server.store, p.call, p.pc).pc), a);
    AdvanceKeepsValues(f.server.store, p.call, p.pc);
    assert Written(p.call, p.pc).Some? ==> Written(p.call, p.pc).value !in Claim(f.server.procs, a) by {
      if p.pc.AtRefresh? {
        WriteIsOwn(f, j, i);
      }
    }
    ClaimKept(f.server.store.sessions, f'.server.store.sessions, Written(p.call, p.pc), Claim(f.server.procs, a));
  }

  lemma SignInServed(f: Flight, j: nat, i: nat)
    requires InFlight(f) && i < |f.agents| && j < |f.server.procs| && Awaits(f.agents[i]) == Some(j)
    requires f.agents[i].phase.SigningIn?
    ensures var f', a := Hop1(f, Serve(j)), f.agents[i];
            && Wired(f'.server.procs, a)
            && Honoured(f'.server.store.sessions, Claim(f'.server.procs, a))
            && (forall k :: k in Claim(f'.server.procs, a) ==>
                  k in Claim(f.server.procs, a) || k !in f.server.store.sessions)
  {
    var p, a, s := f.server.procs[j], f.agents[i], f.server.store;
    var n := Advance(s, p.call, p.pc);
    var p' := p.(pc := n.pc);
    assert Hop1(f, Serve(j)).server.procs[j] == p';
    AdvanceKeepsValues(s, p.call, p.pc);
    LoginOpens(s, p);
    LoginToken(s, p);
    ClaimKept(s.sessions, n.store.sessions, None, Claim(f.server.procs, a));
    if !Opened(p) {
      assert Held(a.client) == Claim(f.server.procs, a);
    } else {
      assert forall k :: k in Held(a.client) ==> Claim(f.server.procs, a)[k] == Held(a.client)[k];
    }
    assert Honoured(n.store.sessions, Held(a.client));
  }

  lemma RenewalServed(f: Flight, j: nat, i: nat)
    requires InFlight(f) && i < |f.agents| && j < |f.server.procs| && Awaits(f.agents[i]) == Some(j)
    requires f.agents[i].phase.Renewing?
    ensures var f', a := Hop1(f, Serve(j)), f.agents[i];
            && Wired(f'.server.procs, a)
            && Honoured(f'.server.store.sessions, Claim(f'.server.procs, a))
            && Claim(f'.server.procs, a).Keys == Claim(f.server.procs, a).Keys
  {
    assert Due(f.server.procs[j]) == Claim(f.server.procs, f.agents[i]);
    RefreshKeepsDue(f.server.store, f.server.procs[j]);
  }

  /** An agent whose call is served relies on the same sessions as before, or on a new one. */
  lemma WaiterServed(f: Flight, j: nat, i: nat)
    requires InFlight(f) && i < |f.agents| && j < |f.server.procs| && Awaits(f.agents[i]) == Some(j)
    ensures var f', a := Hop1(f, Serve(j)), f.agents[i];
            && Wired(f'.server.procs, a)
            && Honoured(f'.server.store.sessions, Claim(f'.server.procs, a))
            && (forall k :: k in Claim(f'.server.procs, a) ==>
                  k in Claim(f.server.procs, a) || k !in f.server.store.sessions)
  {
    var p, a := f.server.procs[j], f.agents[i];
    if a.phase.Renewing? {
      RenewalServed(f, j, i);
    } else if a.phase.SigningIn? {
      SignInServed(f, j, i);
    } else {
      AdvanceKeepsValues(f.server.store, p.call, p.pc);
      ClaimKept(f.server.store.sessions, Hop1(f, Serve(j)).server.store.sessions, None, Held(a.client));
    }
  }

  /** No database call makes a refresh that finds what it expects report a hijack. */
  lemma ServedKeepsCourse(f: Flight, j: nat)
    requires InFlight(f) && j < |f.server.procs| && f.server.procs[j].call.Refresh?
    ensures var p := f.server.procs[j];
            var n := Advance(f.server.store, p.call, p.pc);
            !Reuses(n.pc) && (Live(n.pc) ==> Live(p.pc))
  {
    var p := f.server.procs[j];
    if Live(p.pc) {
      var i :| 0 <= i < |f.agents| && f.agents[i].phase.Renewing? && f.agents[i].phase.p == j;
      assert Due(p) == Claim(f.server.procs, f.agents[i]);
      RefreshKeepsDue(f.server.store, p);
    }
  }

  /** The server's part of the invariant, after one database call. */
  lemma ServeCalm(f: Flight, j: nat)
    requires InFlight(f)
    ensures ServerCalm(Hop1(f, Serve(j)))
  {
    Act1OnCourse(f.server, Resume(j));
    if j < |f.server.procs| {
      var p := f.server.procs[j];
      AdvanceNoHijack(f.server.store, p.call, p.pc);
      if p.call.Refresh? {
        ServedKeepsCourse(f, j);
      }
    }
  }

  lemma ServeClaims(f: Flight, j: nat)
    requires InFlight(f) && j < |f.server.procs|
    ensures ClaimsGood(Hop1(f, Serve(j)))
  {
    var f' := Hop1(f, Serve(j));
    forall i | 0 <= i < |f.agents|
      ensures Wired(f'.server.procs, f.agents[i])
      ensures Honoured(f'.server.store.sessions, Claim(f'.server.procs, f.agents[i]))
      ensures forall k :: k in Claim(f'.server.procs, f.agents[i]) ==>
                k in Claim(f.server.procs, f.agents[i])
                || (k !in f.server.store.sessions && Awaits(f.agents[i]) == Some(j))
    {
      if Awaits(f.agents[i]) == Some(j) {
        WaiterServed(f, j, i);
      } else {
        BystanderServed(f, j, i);
      }
    }
  }

  lemma ServeInFlight(f: Flight, j: nat)
    requires InFlight(f)
    ensures InFlight(Hop1(f, Serve(j)))
  {
    ServeCalm(f, j);
    if j < |f.server.procs| {
      ServeClaims(f, j);
    }
  }

  // ---------------------------------------------------------------- one hop of a client

  lemma StartCalm(c: Call)
    ensures OnCourse(c, Start(c)) && !Reuses(Start(c)) && !Turned(Start(c)) && !Opened(Proc(c, Start(c)))
  {
  }

  lemma ClaimExtends(procs: seq<Proc>, p: Proc, a: Agent)
    requires Wired(procs, a)
    ensures Wired(procs + [p], a) && Claim(procs + [p], a) == Claim(procs, a)
  {
  }

  /** Another caller's call arrives. */
  lemma OtherInFlight(f: Flight, c: Call)
    requires InFlight(f) && !c.Refresh?
    ensures InFlight(Hop1(f, OtherCall(c)))
  {
    StartCalm(c);
    forall i | 0 <= i < |f.agents|
      ensures Wired(f.server.procs + [Proc(c, Start(c))], f.agents[i])
      ensures Claim(f.server.procs + [Proc(c, Start(c))], f.agents[i]) == Claim(f.server.procs, f.agents[i])
    {
      ClaimExtends(f.server.procs, Proc(c, Start(c)), f.agents[i]);
    }
  }

  /** A client sends a request, and relies on the same sessions as before. */
  lemma SendInFlight(f: Flight, i: nat, c: Call, a: Agent)
    requires InFlight(f) && i < |f.agents| && !f.agents[i].phase.Renewing?
    requires Wired(f.server.procs + [Proc(c, Start(c))], a) && Awaits(a) == Some(|f.server.procs|)
    requires Claim(f.server.procs + [Proc(c, Start(c))], a) == Claim(f.server.procs, f.agents[i])
    requires c.Refresh? ==> a.phase.Renewing?
    ensures InFlight(Flight(Act1(f.server, Begin(c)), f.agents[i := a]))
  {
    var f' := Flight(Act1(f.server, Begin(c)), f.agents[i := a]);
    StartCalm(c);
    forall j | 0 <= j < |f.agents| && j != i
      ensures Wired(f'.server.procs, f.agents[j])
      ensures Claim(f'.server.procs, f.agents[j]) == Claim(f.server.procs, f.agents[j])
    {
      ClaimExtends(f.server.procs, Proc(c, Start(c)), f.agents[j]);
    }
    forall j | 0 <= j < |f'.server.procs| && f'.server.procs[j].call.Refresh? && Live(f'.server.procs[j].pc)
      ensures Awaited(f'.agents, j)
    {
      if j < |f.server.procs| {
        var w :| 0 <= w < |f.agents| && f.agents[w].phase.Renewing? && f.agents[w].phase.p == j;
        assert f'.agents[w].phase.Renewing? && f'.agents[w].phase.p == j;
      } else {
        assert f'.agents[i].phase.Renewing? && f'.agents[i].phase.p == j;
      }
    }
  }

  predicate SubClaim(x: map<Key, string>, y: map<Key, string>) {
    forall k :: k in x ==> k in y && x[k] == y[k]
  }

  /** A client stops waiting, and relies on no more than before. */
  lemma RestInFlight(f: Flight, i: nat, a: Agent)
    requires InFlight(f) && i < |f.agents|
    requires Wired(f.server.procs, a) && Awaits(a).None? && !a.phase.Renewing?
    requires SubClaim(Claim(f.server.procs, a), Claim(f.server.procs, f.agents[i]))
    requires f.agents[i].phase.Renewing? ==> !Live(f.server.procs[f.agents[i].phase.p].pc)
    ensures InFlight(f.(agents := f.agents[i := a]))
  {
    var f' := f.(agents := f.agents[i := a]);
    forall j | 0 <= j < |f.server.procs| && f.server.procs[j].call.Refresh? && Live(f.server.procs[j].pc)
      ensures Awaited(f'.agents, j)
    {
      var w :| 0 <= w < |f.agents| && f.agents[w].phase.Renewing? && f.agents[w].phase.p == j;
      assert f'.agents[w].phase.Renewing? && f'.agents[w].phase.p == j;
    }
  }

  lemma TakeInFlight(f: Flight, i: nat, away: bool)
    requires InFlight(f) && i < |f.agents|
    ensures InFlight(f.(agents := f.agents[i := Take(f.server.procs, f.agents[i], away)]))
  {
    var a, a' := f.agents[i], Take(f.server.procs, f.agents[i], away);
    if a' == a {
      assert f.agents[i := a'] == f.agents;
    } else {
      TakenClaim(f, i, away);
      RestInFlight(f, i, a');
    }
  }

  /** A received token is that of the session the client relied on while it waited. */
  lemma ReceivedToken(f: Flight, i: nat)
    requires InFlight(f) && i < |f.agents| && (f.agents[i].phase.SigningIn? || f.agents[i].phase.Renewing?)
    requires ReplyOf(f.server.procs, f.agents[i].phase.p).Some?
    requires ReplyOf(f.server.procs, f.agents[i].phase.p).value.Tokens?
    ensures var r := ReplyOf(f.server.procs, f.agents[i].phase.p).value;
            var cl := Keep(f.agents[i].client, r.accessToken, r.refreshToken);
            && ParseToken(r.refreshToken).Some?
            && SubClaim(Held(cl), Claim(f.server.procs, f.agents[i]))
  {
    var p := f.server.procs[f.agents[i].phase.p];
    var r := p.pc.reply;
    assert Wired(f.server.procs, f.agents[i]);
    if f.agents[i].phase.SigningIn? {
      TokenParts(r.refreshToken, p.call.env.sessionId, p.call.env.tokenValue);
    } else {
      assert OnCourse(p.call, p.pc);
      var sid := ParseToken(p.call.refreshToken).value.0;
      assert sid in Split(p.call.refreshToken, ':');
      TokenParts(r.refreshToken, sid, p.call.env.tokenValue);
    }
  }

  lemma TakenClaim(f: Flight, i: nat, away: bool)
    requires InFlight(f) && i < |f.agents| && Take(f.server.procs, f.agents[i], away) != f.agents[i]
    ensures var a' := Take(f.server.procs, f.agents[i], away);
            && Wired(f.server.procs, a') && Awaits(a').None? && !a'.phase.Renewing?
            && SubClaim(Claim(f.server.procs, a'), Claim(f.server.procs, f.agents[i]))
    ensures f.agents[i].phase.Renewing? ==> !Live(f.server.procs[f.agents[i].phase.p].pc)
  {
    var a := f.agents[i];
    assert Wired(f.server.procs, a);
    if a.phase.SigningIn? || a.phase.Renewing? {
      var r := ReplyOf(f.server.procs, a.phase.p);
      if r.Some? && r.value.Tokens? {
        ReceivedToken(f, i);
      }
    }
  }

  lemma GiveUpInFlight(f: Flight, i: nat)
    requires InFlight(f) && i < |f.agents| && Fair(f, Lose(i))
    ensures InFlight(f.(agents := f.agents[i := GiveUp(f.agents[i])]))
  {
    var a, a' := f.agents[i], GiveUp(f.agents[i]);
    if a' == a {
      assert f.agents[i := a'] == f.agents;
    } else {
      RestInFlight(f, i, a');
    }
  }

  predicate Sending(h: Hop) {
    h.SendSignIn? || h.SendRefresh? || h.SendLogout? || h.SendRequest? || h.SendAgain?
  }

  /** What sending a request does to what the client relies on. */
  predicate SentWell(procs: seq<Proc>, a: Agent, sent: (Option<Call>, Agent)) {
    match sent.0
    case None =>
      sent.1 == a || (Wired(procs, sent.1) && Awaits(sent.1).None? && !sent.1.phase.Renewing? && !a.phase.Renewing?
                      && SubClaim(Claim(procs, sent.1), Claim(procs, a)))
    case Some(c) =>
      && !a.phase.Renewing?
      && Wired(procs + [Proc(c, Start(c))], sent.1) && Awaits(sent.1) == Some(|procs|)
      && Claim(procs + [Proc(c, Start(c))], sent.1) == Claim(procs, a)
      && (c.Refresh? ==> sent.1.phase.Renewing?)
  }

  lemma TokenSentWell(procs: seq<Proc>, a: Agent, er: Option<Errand>, e: Env, sent: bool)
    requires Wired(procs, a) && Generated(e)
    requires (a.phase.Idle? && er.None?) || (a.phase.Expired? && er == Some(a.phase.errand))
    ensures SentWell(procs, a, SendToken(a, er, e, sent, |procs|))
  {
    if Truthy(a.client.refresh).Some? {
      StartCalm(Refresh(a.client.tenantId, a.client.refresh.value, a.client.clientId, e));
    }
  }

  lemma SignInSentWell(procs: seq<Proc>, a: Agent, c: Call)
    requires Wired(procs, a) && a.phase.Idle?
    requires (c.Login? || c.CreateSession?) && Generated(c.env) && c.tenantId == a.client.tenantId
    ensures SentWell(procs, a, (Some(c), a.(phase := SigningIn(|procs|))))
  {
    StartCalm(c);
    assert !(Start(c).Finished? && Start(c).reply.Tokens?);
  }

  lemma SentClaim(f: Flight, h: Hop)
    requires InFlight(f) && Fair(f, h) && Sending(h) && h.i < |f.agents|
    ensures SentWell(f.server.procs, f.agents[h.i], Send(f.agents[h.i], h, |f.server.procs|))
  {
    var procs, a := f.server.procs, f.agents[h.i];
    match h
    case SendRefresh(_, e, sent) =>
      if a.phase.Idle? {
        TokenSentWell(procs, a, None, e, sent);
      } else if a.phase.Expired? {
        TokenSentWell(procs, a, Some(a.phase.errand), e, sent);
      }
    case SendSignIn(_, c) =>
      if a.phase.Idle? {
        SignInSentWell(procs, a, c);
      }
    case _ =>
  }

  lemma SendingInFlight(f: Flight, h: Hop)
    requires InFlight(f) && Fair(f, h) && Sending(h) && h.i < |f.agents|
    ensures InFlight(Hop1(f, h))
  {
    var a := f.agents[h.i];
    SentClaim(f, h);
    var (c, a') := Send(a, h, |f.server.procs|);
    if c.Some? {
      SendInFlight(f, h.i, c.value, a');
    } else if a' == a {
      assert f.agents[h.i := a'] == f.agents;
    } else {
      RestInFlight(f, h.i, a');
    }
  }

  lemma Hop1InFlight(f: Flight, h: Hop)
    requires InFlight(f) && Fair(f, h)
    ensures InFlight(Hop1(f, h))
  {
    match h
    case Serve(j) => ServeInFlight(f, j);
    case OtherCall(c) => OtherInFlight(f, c);
    case Receive(i, away) =>
      if i < |f.agents| {
        TakeInFlight(f, i, away);
      }
    case Lose(i) =>
      if i < |f.agents| {
        GiveUpInFlight(f, i);
      }
    case _ =>
      if h.i < |f.agents| {
        SendingInFlight(f, h);
      }
  }

  lemma {:induction false} FlyInFlight(f: Flight, hs: seq<Hop>)
    requires InFlight(f) && FairFlight(f, hs)
    ensures InFlight(Fly(f, hs))
    decreases hs
  {
    if hs != [] {
      Hop1InFlight(f, hs[0]);
      FlyInFlight(Hop1(f, hs[0]), hs[1..]);
    }
  }

  /** Clients without tokens, no call in progress, and no hijack reported. */
  predicate Fresh(f: Flight) {
    && f.server.procs == [] && NoHijack(f.server.store.outbox)
    && forall a :: a in f.agents ==> a.phase.Idle? && a.client.refresh.None?
  }

  lemma FreshInFlight(f: Flight)
    requires Fresh(f)
    ensures InFlight(f)
  {
    assert forall i :: 0 <= i < |f.agents| ==> f.agents[i] in f.agents;
  }

  /**
   * Any number of clients, each running its own operations one at a time, and any other callers, who may do anything
   * but present a refresh token; the server's database calls interleave in any order. If no answer to a refresh that
   * rotated is lost to a client that keeps its tokens, no `SessionHijackDetected` event is ever written, no refresh
   * is answered or about to be answered with a reuse error, and every token a client stores while it is not just
   * renewing it is the current one of its session or names a revoked one.
   */
  lemma NoFalseHijack(f: Flight, hs: seq<Hop>)
    requires Fresh(f) && FairFlight(f, hs)
    ensures var f' := Fly(f, hs);
            && NoHijack(f'.server.store.outbox)
            && (forall j :: 0 <= j < |f'.server.procs| && f'.server.procs[j].call.Refresh?
                  ==> !Reuses(f'.server.procs[j].pc))
            && (forall i :: 0 <= i < |f'.agents| && !f'.agents[i].phase.Renewing?
                  ==> InStep(f'.server.store.sessions, f'.agents[i].client))
  {
    FreshInFlight(f);
    FlyInFlight(f, hs);
    var f' := Fly(f, hs);
    forall i | 0 <= i < |f'.agents| && !f'.agents[i].phase.Renewing?
      ensures InStep(f'.server.store.sessions, f'.agents[i].client)
    {
      HeldInStep(f', i);
    }
  }

  lemma HeldInStep(f: Flight, i: nat)
    requires InFlight(f) && i < |f.agents| && !f.agents[i].phase.Renewing?
    ensures InStep(f.server.store.sessions, f.agents[i].client)
  {
    var a := f.agents[i];
    assert Wired(f.server.procs, a) && Honoured(f.server.store.sessions, Claim(f.server.procs, a));
    assert forall k :: k in Held(a.client) ==>
        k in Claim(f.server.procs, a) && Claim(f.server.procs, a)[k] == Held(a.client)[k];
  }
}
