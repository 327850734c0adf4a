/**
 * The client's operations as uninterrupted turns, as ClientSpec.dfy states them and the methods of WebClient.dfy
 * carry them out. Every turn is a flight in which nobody else makes a hop, so what holds for flights holds for turns;
 * and turns show what a lost answer does.
 */
module ProtocolTurns {
  import opened Text
  import opened Tables
  import opened SessionSpec
  import opened SessionEffects
  import opened OneTimeTokens
  import opened Replay
  import opened ClientSpec
  import opened Interleaving
  import opened Protocol
  import Serial

  datatype World = World(store: Store, clients: seq<Client>)

  datatype Move =
    | SignIn(i: nat, call: Call, net: Net)
    | Renew(i: nat, env: Env, net: Net)
    | Leave(i: nat, now: int, net: Net)
    | Fetch(i: nat, request: Option<Call>, first: Fate, env: Env, net: Net, second: Fate)
    | LeaveAll(i: nat, userId: string, now: int, first: Fate, env: Env, net: Net, second: Fate)
    | Elsewhere(call: Call) // any other caller of the services

  function TurnOf(w: World, m: Move): Turn
    requires !m.Elsewhere? && m.i < |w.clients|
  {
    var cl := w.clients[m.i];
    match m
    case SignIn(_, c, net) => SignInTurn(w.store, cl, c, net)
    case Renew(_, e, net) => RefreshTurn(w.store, cl, e, net)
    case Leave(_, now, net) => LogoutTurn(w.store, cl, now, net)
    case Fetch(_, request, first, e, net, second) => FetchTurn(w.store, cl, request, first, e, net, second)
    case LeaveAll(_, u, now, first, e, net, second) => LogoutAllTurn(w.store, cl, u, now, first, e, net, second)
  }

  function Play1(w: World, m: Move): World {
    if m.Elsewhere? then w.(store := Step(w.store, m.call).store)
    else if m.i >= |w.clients| then w
    else World(TurnOf(w, m).store, w.clients[m.i := TurnOf(w, m).client])
  }

  function Play(w: World, ms: seq<Move>): World
    decreases ms
  {
    if ms == [] then w else Play(Play1(w, ms[0]), ms[1..])
  }

  /** A lost answer to the refresh request does no harm: the server refused to rotate. */
  predicate LossHarmless(s: Store, cl: Client, e: Env, net: Net) {
    net == ReplyLost && Truthy(cl.refresh).Some? ==>
      !Redeemed(Step(s, Refresh(cl.tenantId, cl.refresh.value, cl.clientId, e)).reply)
  }

  /** The assumptions of Protocol.Fair, for turns. */
  predicate FairMove(w: World, m: Move) {
    match m
    case SignIn(i, c, _) =>
      (c.Login? || c.CreateSession?) && Generated(c.env) && (i < |w.clients| ==> c.tenantId == w.clients[i].tenantId)
    case Renew(i, e, net) => Generated(e) && (i < |w.clients| ==> LossHarmless(w.store, w.clients[i], e, net))
    case Leave(_, _, _) => true
    case Fetch(i, request, first, e, net, _) =>
      NotRefresh(request) && Generated(e)
      && (i < |w.clients| ==> LossHarmless(ClientSpec.Serve(w.store, request, first), w.clients[i], e, net))
    case LeaveAll(_, _, _, _, e, _, _) => Generated(e)
    case Elsewhere(c) => !c.Refresh?
  }

  predicate FairRun(w: World, ms: seq<Move>)
    decreases ms
  {
    ms == [] || (FairMove(w, ms[0]) && FairRun(Play1(w, ms[0]), ms[1..]))
  }

  // ---------------------------------------------------------------- a turn is a flight

  lemma {:induction false} FlyAppend(f: Flight, a: seq<Hop>, b: seq<Hop>)
    requires Valid(f.server)
    ensures Fly(f, a + b) == Fly(Fly(f, a), b)
    ensures FairFlight(f, a + b) <==> FairFlight(f, a) && FairFlight(Fly(f, a), b)
    decreases a
  {
    if a == [] {
      assert a + b == b;
    } else {
      assert (a + b)[0] == a[0] && (a + b)[1..] == a[1..] + b;
      FlyAppend(Hop1(f, a[0]), a[1..], b);
    }
  }

  ghost predicate Leads(f: Flight, hs: seq<Hop>, f': Flight) {
    Valid(f.server) && FairFlight(f, hs) && Fly(f, hs) == f'
  }

  lemma OneHop(f: Flight, h: Hop)
    requires Valid(f.server) && Protocol.Fair(f, h)
    ensures Leads(f, [h], Hop1(f, h))
  {
    assert [h][1..] == [];
  }

  lemma Then(f: Flight, a: seq<Hop>, f1: Flight, b: seq<Hop>, f2: Flight)
    requires Leads(f, a, f1) && Leads(f1, b, f2)
    ensures Leads(f, a + b, f2)
  {
    FlyAppend(f, a, b);
  }

  /** A call in progress carried to its end. */
  function Driven(f: Flight, j: nat): Flight
    requires Valid(f.server) && j < |f.server.procs|
  {
    var p := f.server.procs[j];
    var o := Complete(f.server.store, p.call, p.pc);
    Flight(Config(o.store, f.server.procs[j := p.(pc := Finished(o.reply))]), f.agents)
  }

  lemma DrivenAhead(f: Flight, j: nat)
    requires Valid(f.server) && j < |f.server.procs| && !f.server.procs[j].pc.Finished?
    ensures j < |Hop1(f, Protocol.Serve(j)).server.procs|
    ensures Rank(Hop1(f, Protocol.Serve(j)).server.procs[j].pc) < Rank(f.server.procs[j].pc)
    ensures Driven(Hop1(f, Protocol.Serve(j)), j) == Driven(f, j)
  {
    var p := f.server.procs[j];
    var n := Serial.Ahead(f.server.store, p.call, p.pc);
    RankFalls(f.server.store, p.call, p.pc);
    var o := Complete(n.store, p.call, n.pc);
    assert f.server.procs[j := p.(pc := n.pc)][j := p.(pc := Finished(o.reply))]
        == f.server.procs[j := p.(pc := Finished(o.reply))];
  }

  lemma LoginRankFalls(s: Store, c: Call, pc: LoginPc)
    requires LoginFits(c, pc)
    ensures Rank(StepLogin(s, c, pc).pc) < Rank(AtLogin(pc))
  {
  }

  lemma RefreshRankFalls(s: Store, c: Call, pc: RefreshPc)
    requires c.Refresh?
    ensures Rank(StepRefresh(s, c, pc).pc) < Rank(AtRefresh(pc))
  {
  }

  lemma CloseRankFalls(s: Store, c: Call, pc: ClosePc)
    requires CloseFits(c, pc)
    ensures Rank(StepClose(s, c, pc).pc) < Rank(AtClose(pc))
  {
  }

  /** Every database call brings a call closer to its end. */
  lemma RankFalls(s: Store, c: Call, pc: Pc)
    requires Fits(c, pc) && !pc.Finished?
    ensures Rank(Advance(s, c, pc).pc) < Rank(pc)
  {
    match pc
    case AtLogin(l) => LoginRankFalls(s, c, l);
    case AtRefresh(r) => RefreshRankFalls(s, c, r);
    case AtClose(x) => CloseRankFalls(s, c, x);
    case _ =>
  }

  lemma {:induction false} Drive(f: Flight, j: nat) returns (hs: seq<Hop>)
    requires Valid(f.server) && j < |f.server.procs|
    ensures Leads(f, hs, Driven(f, j))
    decreases Rank(f.server.procs[j].pc)
  {
    if f.server.procs[j].pc.Finished? {
      hs := [];
      assert f.server.procs[j := f.server.procs[j]] == f.server.procs;
    } else {
      DrivenAhead(f, j);
      OneHop(f, Protocol.Serve(j));
      hs := Drive(Hop1(f, Protocol.Serve(j)), j);
      Then(f, [Protocol.Serve(j)], Hop1(f, Protocol.Serve(j)), hs, Driven(f, j));
      hs := [Protocol.Serve(j)] + hs;
    }
  }

  /** Nothing but client `i` and the tables has changed. */
  ghost predicate At(f': Flight, f: Flight, i: nat, s: Store, a: Agent) {
    && Valid(f'.server) && i < |f.agents| && |f'.agents| == |f.agents| && f'.agents == f.agents[i := a]
    && f'.server.store == s && AccessesNameSessions(s)
  }

  lemma StepNamesSessions(s: Store, c: Call)
    requires AccessesNameSessions(s)
    ensures AccessesNameSessions(Step(s, c).store)
  {
    StepGrants(s, c);
    StepEffect(s, c);
    EffectGrows(s.sessions, c, Step(s, c).reply, Step(s, c).store.sessions);
  }

  /** A client sends a request that reaches a service, and the service call runs to its end. */
  lemma Calls(f: Flight, h: Hop, c: Call) returns (hs: seq<Hop>, f': Flight)
    requires Valid(f.server) && AccessesNameSessions(f.server.store)
    requires Sending(h) && h.i < |f.agents| && Protocol.Fair(f, h)
    requires Send(f.agents[h.i], h, |f.server.procs|).0 == Some(c)
    ensures Leads(f, hs, f')
    ensures At(f', f, h.i, Step(f.server.store, c).store, Send(f.agents[h.i], h, |f.server.procs|).1)
    ensures |f'.server.procs| == |f.server.procs| + 1
    ensures f'.server.procs[|f.server.procs|] == Proc(c, Finished(Step(f.server.store, c).reply))
  {
    var n := |f.server.procs|;
    var f1 := Hop1(f, h);
    OneHop(f, h);
    var rest := Drive(f1, n);
    f' := Driven(f1, n);
    Then(f, [h], f1, rest, f');
    hs := [h] + rest;
    Serial.SerialIsAtomic(f.server.store, c);
    StepNamesSessions(f.server.store, c);
  }

  /** A client sends a request that reaches no service. */
  lemma Sends(f: Flight, h: Hop)
    requires Valid(f.server) && AccessesNameSessions(f.server.store)
    requires Sending(h) && h.i < |f.agents| && Protocol.Fair(f, h)
    requires Send(f.agents[h.i], h, |f.server.procs|).0 == None
    ensures Leads(f, [h], Hop1(f, h))
    ensures At(Hop1(f, h), f, h.i, f.server.store, Send(f.agents[h.i], h, |f.server.procs|).1)
  {
    OneHop(f, h);
  }

  /** After what went before, the answer arrives or is lost. */
  lemma Settles(f: Flight, hs: seq<Hop>, f1: Flight, h: Hop, i: nat, s: Store, a: Agent) returns (all: seq<Hop>)
    requires Leads(f, hs, f1) && At(f1, f, i, s, a) && (h.Receive? || h.Lose?) && h.i == i && Protocol.Fair(f1, h)
    ensures Leads(f, all, Hop1(f1, h))
    ensures At(Hop1(f1, h), f, i, s, if h.Receive? then Take(f1.server.procs, a, h.turnedAway) else GiveUp(a))
  {
    OneHop(f1, h);
    Then(f, hs, f1, [h], Hop1(f1, h));
    all := hs + [h];
  }

  /** The client after a renewal on behalf of an errand, or of none. */
  function AfterRenewal(t: Turn, er: Option<Errand>): Agent {
    if t.result.Threw? then Ended(t.client, er)
    else if er.Some? then Agent(t.client, Renewed(er.value))
    else Agent(t.client, Idle)
  }

  /** A renewal whose request is delivered. */
  lemma RenewsAnswered(f: Flight, i: nat, er: Option<Errand>, e: Env, net: Net) returns (hs: seq<Hop>, f': Flight)
    requires Valid(f.server) && AccessesNameSessions(f.server.store) && i < |f.agents| && Generated(e)
    requires if er.Some? then f.agents[i].phase == Expired(er.value) else f.agents[i].phase == Idle
    requires LossHarmless(f.server.store, f.agents[i].client, e, net) || (er.Some? && er.value.leaving)
    requires Truthy(f.agents[i].client.refresh).Some? && net != Unsent
    ensures Leads(f, hs, f')
    ensures var t := RefreshTurn(f.server.store, f.agents[i].client, e, net);
            At(f', f, i, t.store, AfterRenewal(t, er))
  {
    var h, a := SendRefresh(i, e, true), f.agents[i];
    var c := Refresh(a.client.tenantId, a.client.refresh.value, a.client.clientId, e);
    var first, f1 := Calls(f, h, c);
    var last := if net == Delivered then Receive(i, false) else Lose(i);
    hs := Settles(f, first, f1, last, i, Step(f.server.store, c).store, a.(phase := Renewing(|f.server.procs|, er)));
    f' := Hop1(f1, last);
  }

  lemma Renews(f: Flight, i: nat, er: Option<Errand>, e: Env, net: Net) returns (hs: seq<Hop>, f': Flight)
    requires Valid(f.server) && AccessesNameSessions(f.server.store) && i < |f.agents| && Generated(e)
    requires if er.Some? then f.agents[i].phase == Expired(er.value) else f.agents[i].phase == Idle
    requires LossHarmless(f.server.store, f.agents[i].client, e, net) || (er.Some? && er.value.leaving)
    ensures Leads(f, hs, f')
    ensures var t := RefreshTurn(f.server.store, f.agents[i].client, e, net);
            At(f', f, i, t.store, AfterRenewal(t, er))
  {
    if Truthy(f.agents[i].client.refresh).None? || net == Unsent {
      var h := SendRefresh(i, e, net != Unsent);
      Sends(f, h);
      hs, f' := [h], Hop1(f, h);
    } else {
      hs, f' := RenewsAnswered(f, i, er, e, net);
    }
  }

  predicate Reaches(fate: Fate) {
    fate.Served? || (fate.Unanswered? && fate.reached)
  }

  /** A request to a protected route on its way out and through the service it may reach. */
  lemma SendsOrCalls(f: Flight, h: Hop, request: Option<Call>, reaches: bool) returns (hs: seq<Hop>, f': Flight)
    requires Valid(f.server) && AccessesNameSessions(f.server.store)
    requires Sending(h) && h.i < |f.agents| && Protocol.Fair(f, h)
    requires Send(f.agents[h.i], h, |f.server.procs|).0 == if reaches then request else None
    ensures Leads(f, hs, f')
    ensures At(f', f, h.i, if reaches && request.Some? then Step(f.server.store, request.value).store
                           else f.server.store,
               Send(f.agents[h.i], h, |f.server.procs|).1)
    ensures reaches && request.Some? ==>
              && |f'.server.procs| == |f.server.procs| + 1
              && f'.server.procs[|f.server.procs|]
                 == Proc(request.value, Finished(Step(f.server.store, request.value).reply))
  {
    if reaches && request.Some? {
      hs, f' := Calls(f, h, request.value);
    } else {
      Sends(f, h);
      hs, f' := [h], Hop1(f, h);
    }
  }

  /** A request to a protected route, for the first time or again. */
  lemma Asks(f: Flight, i: nat, er: Errand, fate: Fate, again: bool) returns (hs: seq<Hop>, f': Flight)
    requires Valid(f.server) && AccessesNameSessions(f.server.store) && i < |f.agents| && NotRefresh(er.request)
    requires f.agents[i].phase == (if again then Renewed(er) else Idle)
    requires !again ==> f.agents[i].client.access.Some?
    ensures Leads(f, hs, f')
    ensures At(f', f, i, ClientSpec.Serve(f.server.store, er.request, fate),
               if !again && ClientSpec.Refused(f.server.store, er.request, fate)
               then f.agents[i].(phase := Expired(er)) else Ended(f.agents[i].client, Some(er)))
  {
    var h := if again then SendAgain(i, Reaches(fate)) else SendRequest(i, er, Reaches(fate));
    var last := if fate.Unanswered? then Lose(i) else Receive(i, fate.TurnedAway?);
    var a := Send(f.agents[i], h, |f.server.procs|).1;
    var s1 := ClientSpec.Serve(f.server.store, er.request, fate);
    var sent, f1 := SendsOrCalls(f, h, er.request, Reaches(fate));
    hs := Settles(f, sent, f1, last, i, s1, a);
    f' := Hop1(f1, last);
  }

  /** After a 401: the renewal, and the second attempt if it succeeds. */
  lemma Recovers(f: Flight, i: nat, er: Errand, e: Env, net: Net, second: Fate) returns (hs: seq<Hop>, f': Flight)
    requires Valid(f.server) && AccessesNameSessions(f.server.store) && i < |f.agents|
    requires f.agents[i].phase == Expired(er) && NotRefresh(er.request) && Generated(e)
    requires LossHarmless(f.server.store, f.agents[i].client, e, net) || er.leaving
    ensures Leads(f, hs, f')
    ensures var t := RecoverTurn(f.server.store, f.agents[i].client, er.request, e, net, second);
            At(f', f, i, t.store, Ended(t.client, Some(er)))
  {
    var t := RefreshTurn(f.server.store, f.agents[i].client, e, net);
    hs, f' := Renews(f, i, Some(er), e, net);
    if !t.result.Threw? {
      var f1 := f';
      assert f1.agents[i] == Agent(t.client, Renewed(er));
      var last, f2 := Asks(f1, i, er, second, true);
      Then(f, hs, f1, last, f2);
      hs, f' := hs + last, f2;
    }
  }

  lemma FetchRecovers(f: Flight, i: nat, er: Errand, first: Fate, e: Env, net: Net, second: Fate)
    returns (hs: seq<Hop>, f': Flight)
    requires Valid(f.server) && AccessesNameSessions(f.server.store) && i < |f.agents| && f.agents[i].phase.Idle?
    requires NotRefresh(er.request) && Generated(e) && f.agents[i].client.access.Some?
    requires ClientSpec.Refused(f.server.store, er.request, first)
    requires LossHarmless(ClientSpec.Serve(f.server.store, er.request, first), f.agents[i].client, e, net) || er.leaving
    ensures Leads(f, hs, f')
    ensures var s1 := ClientSpec.Serve(f.server.store, er.request, first);
            var t := RecoverTurn(s1, f.agents[i].client, er.request, e, net, second);
            At(f', f, i, t.store, Ended(t.client, Some(er)))
  {
    var a := f.agents[i].(phase := Expired(er));
    var s1 := ClientSpec.Serve(f.server.store, er.request, first);
    var asked, f1 := Asks(f, i, er, first, false);
    assert At(f1, f, i, s1, a) && f1.agents[i] == a;
    var more, f2 := Recovers(f1, i, er, e, net, second);
    var t := RecoverTurn(s1, a.client, er.request, e, net, second);
    Then(f, asked, f1, more, f2);
    hs, f' := asked + more, f2;
  }

  lemma FetchByCases(s: Store, cl: Client, request: Option<Call>, first: Fate, e: Env, net: Net, second: Fate)
    ensures var t, s1 := FetchTurn(s, cl, request, first, e, net, second), ClientSpec.Serve(s, request, first);
            if cl.access.None? then t.store == s && t.client == cl
            else if ClientSpec.Refused(s, request, first) then t == RecoverTurn(s1, cl, request, e, net, second)
            else t.store == s1 && t.client == cl
  {
  }

  /** `authenticatedFetch`, and `logoutAll` around it. */
  lemma Fetches(f: Flight, i: nat, er: Errand, first: Fate, e: Env, net: Net, second: Fate)
    returns (hs: seq<Hop>, f': Flight)
    requires Valid(f.server) && AccessesNameSessions(f.server.store) && i < |f.agents| && f.agents[i].phase.Idle?
    requires NotRefresh(er.request) && Generated(e)
    requires LossHarmless(ClientSpec.Serve(f.server.store, er.request, first), f.agents[i].client, e, net) || er.leaving
    ensures Leads(f, hs, f')
    ensures var t := FetchTurn(f.server.store, f.agents[i].client, er.request, first, e, net, second);
            At(f', f, i, t.store, Ended(t.client, Some(er)))
  {
    FetchByCases(f.server.store, f.agents[i].client, er.request, first, e, net, second);
    if f.agents[i].client.access.None? {
      Sends(f, SendRequest(i, er, false));
      hs, f' := [SendRequest(i, er, false)], Hop1(f, SendRequest(i, er, false));
    } else if ClientSpec.Refused(f.server.store, er.request, first) {
      hs, f' := FetchRecovers(f, i, er, first, e, net, second);
    } else {
      hs, f' := Asks(f, i, er, first, false);
    }
  }

  lemma SignsIn(f: Flight, i: nat, c: Call, net: Net) returns (hs: seq<Hop>, f': Flight)
    requires Valid(f.server) && AccessesNameSessions(f.server.store) && i < |f.agents| && f.agents[i].phase.Idle?
    requires Protocol.Fair(f, SendSignIn(i, c))
    ensures Leads(f, hs, f')
    ensures var t := SignInTurn(f.server.store, f.agents[i].client, c, net);
            At(f', f, i, t.store, Agent(t.client, Idle))
  {
    var a := f.agents[i];
    if net == Unsent {
      hs, f' := [], f;
      assert f.agents[i := a] == f.agents;
    } else {
      var first, f1 := Calls(f, SendSignIn(i, c), c);
      var last := if net == Delivered then Receive(i, false) else Lose(i);
      hs := Settles(f, first, f1, last, i, Step(f.server.store, c).store, a.(phase := SigningIn(|f.server.procs|)));
      f' := Hop1(f1, last);
    }
  }

  lemma Leaves(f: Flight, i: nat, now: int, net: Net) returns (hs: seq<Hop>, f': Flight)
    requires Valid(f.server) && AccessesNameSessions(f.server.store) && i < |f.agents| && f.agents[i].phase.Idle?
    ensures Leads(f, hs, f')
    ensures var t := LogoutTurn(f.server.store, f.agents[i].client, now, net);
            At(f', f, i, t.store, Agent(t.client, Idle))
  {
    var a, h := f.agents[i], SendLogout(i, now);
    if Truthy(a.client.refresh).None? {
      Sends(f, h);
      hs, f' := [h], Hop1(f, h);
    } else {
      var c := Revoke(a.client.tenantId, a.client.refresh.value, now);
      var s := f.server.store;
      var f1: Flight;
      if net == Unsent {
        OneHop(f, h);
        hs, f1 := [h], Hop1(f, h);
      } else {
        hs, f1 := Calls(f, h, c);
        s := Step(s, c).store;
      }
      var last := if net == Delivered then Receive(i, false) else Lose(i);
      hs := Settles(f, hs, f1, last, i, s, a.(phase := Leaving(|f.server.procs|)));
      f' := Hop1(f1, last);
    }
  }

  /** A flight between turns: every client is idle. */
  ghost predicate Pictures(f: Flight, w: World) {
    && Valid(f.server) && f.server.store == w.store && AccessesNameSessions(w.store)
    && |f.agents| == |w.clients|
    && forall i :: 0 <= i < |w.clients| ==> f.agents[i] == Agent(w.clients[i], Idle)
  }

  lemma Arrives(f: Flight, c: Call) returns (hs: seq<Hop>, f': Flight)
    requires Valid(f.server) && AccessesNameSessions(f.server.store) && !c.Refresh?
    ensures Leads(f, hs, f')
    ensures Valid(f'.server) && f'.agents == f.agents && f'.server.store == Step(f.server.store, c).store
    ensures AccessesNameSessions(f'.server.store)
  {
    var n := |f.server.procs|;
    var f1 := Hop1(f, OtherCall(c));
    OneHop(f, OtherCall(c));
    var rest := Drive(f1, n);
    f' := Driven(f1, n);
    Then(f, [OtherCall(c)], f1, rest, f');
    hs := [OtherCall(c)] + rest;
    Serial.SerialIsAtomic(f.server.store, c);
    StepNamesSessions(f.server.store, c);
  }

  /** Every fair turn is a fair flight. */
  lemma MoveIsFlight(w: World, m: Move, f: Flight) returns (hs: seq<Hop>, f': Flight)
    requires Pictures(f, w) && FairMove(w, m)
    ensures Leads(f, hs, f') && Pictures(f', Play1(w, m))
  {
    if m.Elsewhere? {
      hs, f' := Arrives(f, m.call);
    } else if m.i >= |w.clients| {
      hs, f' := [], f;
    } else {
      match m
      case SignIn(i, c, net) => hs, f' := SignsIn(f, i, c, net);
      case Renew(i, e, net) => hs, f' := Renews(f, i, None, e, net);
      case Leave(i, now, net) => hs, f' := Leaves(f, i, now, net);
      case Fetch(i, request, first, e, net, second) =>
        hs, f' := Fetches(f, i, Errand(request, false), first, e, net, second);
      case LeaveAll(i, u, now, first, e, net, second) =>
        hs, f' := Fetches(f, i, Errand(Some(RevokeAll(w.clients[i].tenantId, u, now)), true), first, e, net, second);
    }
  }

  lemma {:induction false} PlayIsFlight(w: World, ms: seq<Move>, f: Flight) returns (hs: seq<Hop>)
    requires Pictures(f, w) && FairRun(w, ms)
    ensures Valid(f.server) && FairFlight(f, hs) && Pictures(Fly(f, hs), Play(w, ms))
    decreases ms
  {
    if ms == [] {
      hs := [];
    } else {
      var first, f1 := MoveIsFlight(w, ms[0], f);
      var rest := PlayIsFlight(Play1(w, ms[0]), ms[1..], f1);
      FlyAppend(f, first, rest);
      hs := first + rest;
    }
  }

  /** What flights guarantee, turns do too: with clients that have no tokens yet, no run of turns reports a hijack. */
  lemma TurnsReportNoHijack(w: World, ms: seq<Move>)
    requires NoHijack(w.store.outbox) && AccessesNameSessions(w.store)
    requires forall cl :: cl in w.clients ==> cl.refresh.None?
    requires FairRun(w, ms)
    ensures NoHijack(Play(w, ms).store.outbox)
    ensures forall cl :: cl in Play(w, ms).clients ==> InStep(Play(w, ms).store.sessions, cl)
  {
    var agents := seq(|w.clients|, i requires 0 <= i < |w.clients| => Agent(w.clients[i], Idle));
    var f := Flight(Config(w.store, []), agents);
    var hs := PlayIsFlight(w, ms, f);
    NoFalseHijack(f, hs);
  }

  // ---------------------------------------------------------------- an expired access token

  /** The guard or the service answers 401. */
  predicate Answers401(s: Store, request: Option<Call>, fate: Fate) {
    fate == TurnedAway
    || (fate == Served && request.Some? && Step(s, request.value).reply.Failed?
        && Step(s, request.value).reply.error in {InvalidCredentials, AccountLocked, NoPassword, DpopFailed,
             BadTokenFormat, UnknownSession, RevokedSession, TokenReuse, InvalidSession})
  }

  /**
   * What a 401 leads to when nothing is lost: if the server renews the tokens, the client stores both and the request
   * is made once more, against the tables as they are then, and its second answer is the result; if it refuses, both
   * tokens go and the request is not made again. Any other first answer is the result, and the tokens stay.
   */
  lemma AsksOnceMore(s: Store, cl: Client, request: Option<Call>, first: Fate, e: Env)
    requires cl.access.Some? && cl.refresh.Some? && cl.refresh.value != "" && !first.Unanswered?
    ensures var t := FetchTurn(s, cl, request, first, e, Delivered, Served);
            var s1 := if first == Served && request.Some? then Step(s, request.value).store else s;
            var o := Step(s1, Refresh(cl.tenantId, cl.refresh.value, cl.clientId, e));
            if !Answers401(s, request, first)
            then t == Turn(s1, cl, Returned(if request.Some? then Some(Step(s, request.value).reply) else None))
            else if o.reply.Tokens?
            then && t.client == Client(cl.tenantId, cl.clientId, Some(o.reply.accessToken), Some(o.reply.refreshToken))
                 && (if request.Some? then t.store == Step(o.store, request.value).store
                                           && t.result == Returned(Some(Step(o.store, request.value).reply))
                     else t.store == o.store && t.result == Returned(None))
            else t == Turn(o.store, Client(cl.tenantId, cl.clientId, None, None), Threw)
  {
    var c := Refresh(cl.tenantId, cl.refresh.value, cl.clientId, e);
    assert Truthy(cl.refresh) == cl.refresh;
  }

  // ---------------------------------------------------------------- lost answers

  /**
   * A lost answer to a refresh is harmless in exactly two cases: the token did not pass, its session being revoked,
   * or the proof was bad. Otherwise it leaves the client with a token that is no longer its session's.
   */
  lemma LostAnswerIff(s: Store, cl: Client, e: Env)
    requires InStep(s.sessions, cl) && cl.refresh.Some? && e.tokenValue != ParseToken(cl.refresh.value).value.1
    ensures var t := RefreshTurn(s, cl, e, ReplyLost);
            InStep(t.store.sessions, t.client) <==> !Passes(s, cl.tenantId, cl.refresh.value) || e.dpop.BadProof?
    ensures Redeemed(Step(s, Refresh(cl.tenantId, cl.refresh.value, cl.clientId, e)).reply)
            <==> Passes(s, cl.tenantId, cl.refresh.value) && !e.dpop.BadProof?
  {
    RefreshEffect(s, cl.tenantId, cl.refresh.value, cl.clientId, e);
  }

  /**
   * What a harmful loss leads to: whatever calls follow, however many, the client's next refresh that reaches the
   * server and is answered closes every session the user has in the tenant and makes the client forget its tokens;
   * it reports a hijack unless the session was revoked in between.
   */
  lemma LostAnswerLooksLikeReuse(s: Store, cl: Client, e: Env, cs: seq<Call>, e': Env)
    requires cl.refresh.Some? && Passes(s, cl.tenantId, cl.refresh.value)
    requires !e.dpop.BadProof? && e.tokenValue != ParseToken(cl.refresh.value).value.1
    requires NotDrawn(cs, ParseToken(cl.refresh.value).value.1)
    ensures var k := Key(cl.tenantId, ParseToken(cl.refresh.value).value.0);
            var u := s.sessions[k].userId;
            var s1 := RefreshTurn(s, cl, e, ReplyLost).store;
            var s2 := Run(s1, cs);
            var t := RefreshTurn(s2, RefreshTurn(s, cl, e, ReplyLost).client, e', Delivered);
            && k in s2.sessions
            && t.store.outbox == s2.outbox + [OutboxRow(cl.tenantId, AllSessionsRevoked(u))]
                 + (if s2.sessions[k].revokedAt.None?
                    then [OutboxRow(cl.tenantId, SessionHijackDetected(u, k.id, e'.origin))] else [])
            && ActiveSessions(t.store, cl.tenantId, u) == {}
            && t.client == Forget(cl)
  {
    var t, token := cl.tenantId, cl.refresh.value;
    var k, val := Key(t, ParseToken(token).value.0), ParseToken(token).value.1;
    SplitOfPart("", ':');
    RefreshEffect(s, t, token, cl.clientId, e);
    var s1 := Step(s, Refresh(t, token, cl.clientId, e)).store;
    assert s1.sessions[k] == Rotated(s.sessions[k], e);
    var s2 := Run(s1, cs);
    RunGrows(s1, cs);
    CurrentIffUntouchedRun(s1, cs, k, val);
    PassesIffCurrent(s2, t, token);
    DetectedIff(s2, t, token, cl.clientId, e');
    ReplayClosesUser(s2, t, token, cl.clientId, e');
  }
}
