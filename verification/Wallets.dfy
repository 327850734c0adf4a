/**
 * Which tokens a client stores, said by what it received: both tokens of one answer, or none. The wallet is kept from
 * the hops alone, without the functions that write the client's storage.
 */
module Wallets {
  import opened Text
  import opened Tables
  import opened SessionSpec
  import opened ClientSpec
  import opened Interleaving
  import opened Protocol

  /** The access and the refresh token of one answer. */
  datatype Wallet = Empty | Both(access: AccessToken, refresh: string)

  predicate Finishes(f: Flight, p: nat) {
    p < |f.server.procs| && f.server.procs[p].pc.Finished?
  }

  /** The hop ends a `logoutAll`: the client was on that errand, or sets out on it, and is idle afterwards. */
  predicate EndsLeaving(f: Flight, h: Hop, i: nat)
    requires Valid(f.server) && i < |f.agents|
  {
    && !h.Serve? && !h.OtherCall? && h.i == i && Hop1(f, h).agents[i].phase.Idle?
    && match f.agents[i].phase
       case Idle => h.SendRequest? && h.errand.leaving
       case Asking(_, er) => er.leaving
       case Expired(er) => er.leaving
       case Renewing(_, er) => er.Some? && er.value.leaving
       case Renewed(er) => er.leaving
       case Retrying(_, er) => er.leaving
       case _ => false
  }

  /** The client receives the answer to its login or refresh. */
  predicate Receives(f: Flight, h: Hop, i: nat)
    requires i < |f.agents|
  {
    && h.Receive? && h.i == i && (f.agents[i].phase.SigningIn? || f.agents[i].phase.Renewing?)
    && Finishes(f, f.agents[i].phase.p)
  }

  /** The hop ends a logout, or brings a refusal of a refresh. */
  predicate Drops(f: Flight, h: Hop, i: nat)
    requires i < |f.agents|
  {
    || (h.Receive? && h.i == i && f.agents[i].phase.Leaving? && Finishes(f, f.agents[i].phase.p))
    || (h.Lose? && h.i == i && f.agents[i].phase.Leaving?)
    || (Receives(f, h, i) && f.agents[i].phase.Renewing? && !f.server.procs[f.agents[i].phase.p].pc.reply.Tokens?)
  }

  /** What a hop does to a client's wallet. */
  function Carry(f: Flight, h: Hop, i: nat, w: Wallet): Wallet
    requires Valid(f.server) && i < |f.agents|
  {
    if Drops(f, h, i) || EndsLeaving(f, h, i) then Empty
    else if Receives(f, h, i) && f.server.procs[f.agents[i].phase.p].pc.reply.Tokens? then
      var r := f.server.procs[f.agents[i].phase.p].pc.reply;
      Both(r.accessToken, r.refreshToken)
    else w
  }

  function CarryAll(f: Flight, hs: seq<Hop>, i: nat, w: Wallet): Wallet
    requires Valid(f.server) && i < |f.agents|
    decreases hs
  {
    if hs == [] then w
    else
      assert |Hop1(f, hs[0]).agents| == |f.agents|;
      CarryAll(Hop1(f, hs[0]), hs[1..], i, Carry(f, hs[0], i, w))
  }

  /** A finished service call gave this pair. */
  ghost predicate Gave(procs: seq<Proc>, w: Wallet) {
    w.Both? ==> exists j :: 0 <= j < |procs| && procs[j].pc == Finished(Tokens(w.access, w.refresh))
  }

  /** The client's storage is the wallet, for its own tenant and product. */
  predicate Holds(cl: Client, t: string, product: Option<string>, w: Wallet) {
    && cl.tenantId == t && cl.clientId == product
    && cl.access == (if w.Both? then Some(w.access) else None)
    && cl.refresh == (if w.Both? then Some(w.refresh) else None)
  }

  /** And a service call gave that pair. */
  ghost predicate Stored(f: Flight, i: nat, t: string, product: Option<string>, w: Wallet) {
    i < |f.agents| && Holds(f.agents[i].client, t, product, w) && Gave(f.server.procs, w)
  }

  /** What a call gave, it has given. */
  lemma HopGave(f: Flight, h: Hop, w: Wallet)
    requires Valid(f.server) && Gave(f.server.procs, w)
    ensures Gave(Hop1(f, h).server.procs, w)
  {
    if w.Both? {
      var j :| 0 <= j < |f.server.procs| && f.server.procs[j].pc == Finished(Tokens(w.access, w.refresh));
      assert Hop1(f, h).server.procs[j].pc == f.server.procs[j].pc;
    }
  }

  lemma SendKeeps(f: Flight, h: Hop, i: nat, t: string, product: Option<string>, w: Wallet)
    requires Valid(f.server) && i < |f.agents| && Holds(f.agents[i].client, t, product, w) && Sending(h)
    ensures i < |Hop1(f, h).agents| && Holds(Hop1(f, h).agents[i].client, t, product, Carry(f, h, i, w))
    ensures Carry(f, h, i, w) == w || Carry(f, h, i, w) == Empty
  {
  }

  lemma AnswerKeeps(f: Flight, h: Hop, i: nat, t: string, product: Option<string>, w: Wallet)
    requires Valid(f.server) && i < |f.agents| && Holds(f.agents[i].client, t, product, w) && (h.Receive? || h.Lose?)
    ensures i < |Hop1(f, h).agents| && Holds(Hop1(f, h).agents[i].client, t, product, Carry(f, h, i, w))
    ensures Carry(f, h, i, w) != w ==> Gave(Hop1(f, h).server.procs, Carry(f, h, i, w))
  {
  }

  lemma HopStored(f: Flight, h: Hop, i: nat, t: string, product: Option<string>, w: Wallet)
    requires Valid(f.server) && Stored(f, i, t, product, w)
    ensures Stored(Hop1(f, h), i, t, product, Carry(f, h, i, w))
  {
    HopGave(f, h, w);
    if Sending(h) {
      SendKeeps(f, h, i, t, product, w);
    } else if h.Receive? || h.Lose? {
      AnswerKeeps(f, h, i, t, product, w);
    }
  }

  /**
   * After any hops of any clients, and any work of the server in between, a client that began with its tokens in its
   * wallet has stored exactly what the wallet holds: both tokens of the last answer that brought any, or neither.
   */
  lemma {:induction false} FlyStored(f: Flight, hs: seq<Hop>, i: nat, t: string, product: Option<string>, w: Wallet)
    requires Valid(f.server) && Stored(f, i, t, product, w)
    ensures Stored(Fly(f, hs), i, t, product, CarryAll(f, hs, i, w))
    decreases hs
  {
    if hs != [] {
      HopStored(f, hs[0], i, t, product, w);
      FlyStored(Hop1(f, hs[0]), hs[1..], i, t, product, Carry(f, hs[0], i, w));
    }
  }

  predicate NeverDrops(f: Flight, hs: seq<Hop>, i: nat)
    requires Valid(f.server) && i < |f.agents|
    decreases hs
  {
    hs == [] || (!Drops(f, hs[0], i) && !EndsLeaving(f, hs[0], i)
                 && |Hop1(f, hs[0]).agents| == |f.agents| && NeverDrops(Hop1(f, hs[0]), hs[1..], i))
  }

  /**
   * Hence an idle client sends its next request, instead of throwing for want of an access token, exactly when its
   * wallet is full; and a wallet once full stays so until a logout ends or a refresh is refused.
   */
  lemma {:induction false} AsksIffFull(f: Flight, hs: seq<Hop>, i: nat, w: Wallet, er: Errand, reaches: bool)
    requires Valid(f.server) && i < |f.agents|
    requires Stored(f, i, f.agents[i].client.tenantId, f.agents[i].client.clientId, w)
    ensures i < |Fly(f, hs).agents|
    ensures Fly(f, hs).agents[i].phase.Idle? ==>
              (Hop1(Fly(f, hs), SendRequest(i, er, reaches)).agents[i].phase.Asking? <==> CarryAll(f, hs, i, w).Both?)
    ensures w.Both? && NeverDrops(f, hs, i) ==> CarryAll(f, hs, i, w).Both?
    decreases hs
  {
    FlyStored(f, hs, i, f.agents[i].client.tenantId, f.agents[i].client.clientId, w);
    if hs != [] {
      HopStored(f, hs[0], i, f.agents[i].client.tenantId, f.agents[i].client.clientId, w);
      AsksIffFull(Hop1(f, hs[0]), hs[1..], i, Carry(f, hs[0], i, w), er, reaches);
    }
  }
}
