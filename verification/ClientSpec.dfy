/**
 * What one operation of the web SDK's KavachClient does to its two stored tokens and, through the requests it
 * makes, to the server's tables. The server side of a request is one atomic step.
 */
module ClientSpec {
  import opened Text
  import opened Tables
  import opened SessionSpec

  /** The storage of one client, with the tenant and product it was configured for. */
  datatype Client = Client(tenantId: string, clientId: Option<string>,
                           access: Option<AccessToken>, refresh: Option<string>)

  /** What the network does to a request: delivers it and its answer, loses it, or loses only the answer. */
  datatype Net = Delivered | Unsent | ReplyLost

  /** What becomes of a request to a protected route: turned away by the guard, served, or never answered. */
  datatype Fate = TurnedAway | Served | Unanswered(reached: bool)

  datatype Result = Threw | Returned(reply: Option<Reply>)

  datatype Turn = Turn(store: Store, client: Client, result: Result)

  function Exchange(s: Store, c: Call, net: Net): (Store, Option<Reply>) {
    match net
    case Unsent => (s, None)
    case Delivered => (Step(s, c).store, Some(Step(s, c).reply))
    case ReplyLost => (Step(s, c).store, None)
  }

  function Keep(cl: Client, a: AccessToken, refresh: string): Client {
    cl.(access := Some(a), refresh := Some(refresh))
  }

  function Forget(cl: Client): Client {
    cl.(access := None, refresh := None)
  }

  /** `login` and `loginWithPasskey`: tokens are stored on success and left as they were otherwise. */
  function SignInTurn(s: Store, cl: Client, c: Call, net: Net): Turn {
    var x := Exchange(s, c, net);
    match x.1
    case Some(Tokens(a, r)) => Turn(x.0, Keep(cl, a, r), Returned(x.1))
    case _ => Turn(x.0, cl, Threw)
  }

  /** `refresh`: any answer but success makes the client forget both tokens; no answer leaves them. */
  function RefreshTurn(s: Store, cl: Client, e: Env, net: Net): Turn {
    match Truthy(cl.refresh)
    case None => Turn(s, cl, Threw)
    case Some(token) =>
      var x := Exchange(s, Refresh(cl.tenantId, token, cl.clientId, e), net);
      match x.1
      case None => Turn(x.0, cl, Threw)
      case Some(Tokens(a, r)) => Turn(x.0, Keep(cl, a, r), Returned(x.1))
      case Some(_) => Turn(x.0, Forget(cl), Threw)
  }

  /** `logout`: the tokens go whatever the server or the network does. */
  function LogoutTurn(s: Store, cl: Client, now: int, net: Net): Turn {
    match Truthy(cl.refresh)
    case None => Turn(s, cl, Returned(None))
    case Some(token) =>
      Turn(Exchange(s, Revoke(cl.tenantId, token, now), net).0, Forget(cl), Returned(None))
  }

  /** The answers a client sees as HTTP 401. */
  predicate Unauthorized(r: Reply) {
    r.Failed? && (r.error.InvalidCredentials? || r.error.AccountLocked? || r.error.NoPassword? || r.error.DpopFailed?
                  || r.error.BadTokenFormat? || r.error.UnknownSession? || r.error.RevokedSession?
                  || r.error.TokenReuse? || r.error.InvalidSession?)
  }

  /** A request to a protected route; it reaches a service only if the route calls one. */
  function Serve(s: Store, request: Option<Call>, fate: Fate): Store {
    if request.Some? && (fate.Served? || (fate.Unanswered? && fate.reached)) then Step(s, request.value).store else s
  }

  function Answer(s: Store, request: Option<Call>): Option<Reply> {
    if request.Some? then Some(Step(s, request.value).reply) else None
  }

  /** What `authenticatedFetch` does after a 401: refresh once and try the request a second time. */
  function RecoverTurn(s: Store, cl: Client, request: Option<Call>, e: Env, net: Net, second: Fate): Turn {
    var t := RefreshTurn(s, cl, e, net);
    if t.result.Threw? then t
    else
      var s' := Serve(t.store, request, second);
      if second.Unanswered? then Turn(s', t.client, Threw)
      else if second.TurnedAway? then Turn(s', t.client, Returned(None))
      else Turn(s', t.client, Returned(Answer(t.store, request)))
  }

  /** The first answer is a 401, from the guard or from the service. */
  predicate Refused(s: Store, request: Option<Call>, fate: Fate) {
    fate.TurnedAway? || (fate.Served? && request.Some? && Unauthorized(Step(s, request.value).reply))
  }

  /** `authenticatedFetch`. */
  function FetchTurn(s: Store, cl: Client, request: Option<Call>, first: Fate, e: Env, net: Net, second: Fate): Turn {
    if cl.access.None? then Turn(s, cl, Threw)
    else
      var s1 := Serve(s, request, first);
      if first.Unanswered? then Turn(s1, cl, Threw)
      else if !Refused(s, request, first) then Turn(s1, cl, Returned(Answer(s, request)))
      else RecoverTurn(s1, cl, request, e, net, second)
  }

  /** `logoutAll`: the request, with its possible refresh, and then both tokens go in any case. */
  function LogoutAllTurn(s: Store, cl: Client, userId: string, now: int, first: Fate, e: Env, net: Net, second: Fate)
    : Turn
  {
    var t := FetchTurn(s, cl, Some(RevokeAll(cl.tenantId, userId, now)), first, e, net, second);
    Turn(t.store, Forget(t.client), Returned(None))
  }
}
