/** The SDK client statement by statement: its storage changes exactly as ClientSpec.dfy says. */
module WebClient {
  import opened Text
  import opened Tables
  import opened SessionSpec
  import opened ClientSpec
  import opened Services

  class KavachClient {
    const tenantId: string
    const clientId: Option<string>
    const backend: Backend
    var accessToken: Option<AccessToken>
    var refreshToken: Option<string>

    constructor (backend: Backend, tenantId: string, clientId: Option<string>)
      requires backend.Valid()
      ensures this.backend == backend && Valid()
      ensures View() == Client(tenantId, clientId, None, None)
    {
      this.backend, this.tenantId, this.clientId := backend, tenantId, clientId;
      accessToken, refreshToken := None, None;
    }

    ghost predicate Valid() {
      backend.Valid()
    }

    ghost function View(): Client
      reads this
    {
      Client(tenantId, clientId, accessToken, refreshToken)
    }

    /** `fetch` of a public route: the server takes its step unless the request is lost. */
    method Send(c: Call, net: Net) returns (answer: Option<Reply>)
      requires Valid()
      modifies backend.db
      ensures (backend.db.View(), answer) == Exchange(old(backend.db.View()), c, net)
    {
      answer := None;
      if net != Unsent {
        var r := backend.Serve(c);
        if net == Delivered {
          answer := Some(r);
        }
      }
    }

    method SignIn(c: Call, net: Net) returns (res: Result)
      requires Valid()
      modifies this, backend.db
      ensures Turn(backend.db.View(), View(), res) == SignInTurn(old(backend.db.View()), old(View()), c, net)
      ensures var r := Step(old(backend.db.View()), c).reply;
              if net == Delivered && r.Tokens?
              then res == Returned(Some(r)) && accessToken == Some(r.accessToken)
                   && refreshToken == Some(r.refreshToken)
              else res == Threw && accessToken == old(accessToken) && refreshToken == old(refreshToken)
    {
      var answer := Send(c, net);
      if answer.None? || !answer.value.Tokens? {
        return Threw;
      }
      accessToken := Some(answer.value.accessToken);
      refreshToken := Some(answer.value.refreshToken);
      res := Returned(answer);
    }

    method Refresh(e: Env, net: Net) returns (res: Result)
      requires Valid()
      modifies this, backend.db
      ensures Turn(backend.db.View(), View(), res) == RefreshTurn(old(backend.db.View()), old(View()), e, net)
      ensures if old(refreshToken) == None || old(refreshToken) == Some("") || net != Delivered
              then res == Threw && accessToken == old(accessToken) && refreshToken == old(refreshToken)
              else
                var c := Call.Refresh(tenantId, old(refreshToken).value, clientId, e);
                var r := Step(old(backend.db.View()), c).reply;
                if r.Tokens?
                then res == Returned(Some(r)) && accessToken == Some(r.accessToken)
                     && refreshToken == Some(r.refreshToken)
                else res == Threw && accessToken == None && refreshToken == None
    {
      if refreshToken.None? || refreshToken.value == "" {
        return Threw;
      }
      var answer := Send(Call.Refresh(tenantId, refreshToken.value, clientId, e), net);
      if answer.None? {
        return Threw;
      }
      if !answer.value.Tokens? {
        accessToken := None;
        refreshToken := None;
        return Threw;
      }
      accessToken := Some(answer.value.accessToken);
      refreshToken := Some(answer.value.refreshToken);
      res := Returned(answer);
    }

    method Logout(now: int, net: Net) returns (res: Result)
      requires Valid()
      modifies this, backend.db
      ensures Turn(backend.db.View(), View(), res) == LogoutTurn(old(backend.db.View()), old(View()), now, net)
    {
      if refreshToken.None? || refreshToken.value == "" {
        return Returned(None);
      }
      var answer := Send(Call.Revoke(tenantId, refreshToken.value, now), net);
      accessToken := None;
      refreshToken := None;
      res := Returned(None);
    }

    /** `fetch` of a protected route. */
    method Request(request: Option<Call>, fate: Fate) returns (answer: Option<Reply>)
      requires Valid()
      modifies backend.db
      ensures backend.db.View() == ClientSpec.Serve(old(backend.db.View()), request, fate)
      ensures fate.Served? ==> answer == Answer(old(backend.db.View()), request)
    {
      answer := None;
      if request.Some? && (fate.Served? || (fate.Unanswered? && fate.reached)) {
        var r := backend.Serve(request.value);
        answer := Some(r);
      }
    }

    method AuthenticatedFetch(request: Option<Call>, first: Fate, e: Env, net: Net, second: Fate)
      returns (res: Result)
      requires Valid()
      modifies this, backend.db
      ensures Turn(backend.db.View(), View(), res)
           == FetchTurn(old(backend.db.View()), old(View()), request, first, e, net, second)
    {
      if accessToken.None? {
        return Threw;
      }
      var response := Request(request, first);
      if first.Unanswered? {
        return Threw;
      }
      if first.TurnedAway? || (response.Some? && Unauthorized(response.value)) {
        var refreshed := Refresh(e, net);
        if refreshed == Threw {
          return Threw;
        }
        response := Request(request, second);
        if second.Unanswered? {
          return Threw;
        }
        if second.TurnedAway? {
          return Returned(None);
        }
      }
      res := Returned(response);
    }

    method LogoutAll(userId: string, now: int, first: Fate, e: Env, net: Net, second: Fate) returns (res: Result)
      requires Valid()
      modifies this, backend.db
      ensures Turn(backend.db.View(), View(), res)
           == LogoutAllTurn(old(backend.db.View()), old(View()), userId, now, first, e, net, second)
    {
      var fetched := AuthenticatedFetch(Some(Call.RevokeAll(tenantId, userId, now)), first, e, net, second);
      accessToken := None;
      refreshToken := None;
      res := Returned(None);
    }
  }
}
