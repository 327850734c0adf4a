/** The credential-stuffing worker: group recent failed logins, then lock accounts. Times are in milliseconds. */
module Lockout {
  import opened Text
  import opened Tables
  import opened SessionSpec

  datatype LockEvent = LockEvent(tenantId: string, userId: string, failedAttempts: nat)

  datatype LockAudit = LockAudit(tenantId: string, userId: string, threshold: int, attempts: nat)

  /** What the worker writes. */
  datatype Board = Board(users: seq<User>, events: seq<LockEvent>, audits: seq<LockAudit>)

  const WINDOW := 5 * 60 * 1000

  function GroupKey(a: Attempt): string {
    a.tenantId + ":" + a.identifier
  }

  predicate RecentFailure(a: Attempt, since: int) {
    !a.success && a.createdAt >= since
  }

  /** `loginAttempt.findMany`, in table order. */
  function FailuresSince(attempts: seq<Attempt>, since: int): seq<Attempt> {
    if attempts == [] then []
    else FailuresSince(attempts[..|attempts| - 1], since)
         + (if RecentFailure(attempts[|attempts| - 1], since) then [attempts[|attempts| - 1]] else [])
  }

  /** The attempts with this key, in order. */
  function WithKey(failures: seq<Attempt>, key: string): seq<Attempt> {
    if failures == [] then []
    else WithKey(failures[..|failures| - 1], key)
         + (if GroupKey(failures[|failures| - 1]) == key then [failures[|failures| - 1]] else [])
  }

  /** The different keys, in order of first appearance. */
  function KeysOf(failures: seq<Attempt>): seq<string> {
    if failures == [] then []
    else
      var before := KeysOf(failures[..|failures| - 1]);
      var key := GroupKey(failures[|failures| - 1]);
      if key in before then before else before + [key]
  }

  function GroupsOf(failures: seq<Attempt>, keys: seq<string>): seq<seq<Attempt>> {
    seq(|keys|, (k: nat) requires k < |keys| => WithKey(failures, keys[k]))
  }

  /** `user.findFirst` among the tenant's accounts that are not locked yet: its position. */
  function FirstUnlocked(users: seq<User>, t: string, identifier: string): (r: Option<nat>)
    ensures r.Some? ==> r.value < |users| && Named(users[r.value], t, identifier) && !users[r.value].status.Locked?
    ensures forall n :: 0 <= n < |users| && (r.Some? ==> n < r.value) ==>
              !Named(users[n], t, identifier) || users[n].status.Locked?
  {
    if users == [] then None
    else if Named(users[0], t, identifier) && !users[0].status.Locked? then Some(0)
    else match FirstUnlocked(users[1..], t, identifier)
         case None => None
         case Some(n) => Some(n + 1)
  }

  /** `tenant.maxFailedLogins || 5` */
  function Threshold(max: int): int {
    if max == 0 then 5 else max
  }

  predicate Over(g: seq<Attempt>, max: string -> int)
    requires g != []
  {
    |g| >= Threshold(max(g[0].tenantId))
  }

  /** One group's turn in the locking loop. */
  function Turn(b: Board, g: seq<Attempt>, max: string -> int): Board {
    if g == [] || !Over(g, max) then b
    else
      match FirstUnlocked(b.users, g[0].tenantId, g[0].identifier)
      case None => b
      case Some(n) =>
        var u := b.users[n];
        Board(b.users[n := u.(status := Locked)],
              b.events + [LockEvent(g[0].tenantId, u.id, |g|)],
              b.audits + [LockAudit(g[0].tenantId, u.id, Threshold(max(g[0].tenantId)), |g|)])
  }

  function Turns(b: Board, gs: seq<seq<Attempt>>, max: string -> int): Board {
    if gs == [] then b else Turn(Turns(b, gs[..|gs| - 1], max), gs[|gs| - 1], max)
  }

  /** One run of the worker. */
  function Sweep(b: Board, attempts: seq<Attempt>, now: int, max: string -> int): Board {
    var failures := FailuresSince(attempts, now - WINDOW);
    Turns(b, GroupsOf(failures, KeysOf(failures)), max)
  }

  // ---------------------------------------------------------------- the worker

  lemma {:induction false} KeysOfMembers(failures: seq<Attempt>, key: string)
    ensures key in KeysOf(failures) <==> WithKey(failures, key) != []
    ensures forall i, j :: 0 <= i < j < |KeysOf(failures)| ==> KeysOf(failures)[i] != KeysOf(failures)[j]
  {
    if failures != [] {
      KeysOfMembers(failures[..|failures| - 1], key);
    }
  }

  /** Later failures come last: their keys after those seen before, and each in its group after the earlier ones. */
  lemma {:induction false} GroupingGrows(failures: seq<Attempt>, more: seq<Attempt>, key: string)
    ensures KeysOf(failures) <= KeysOf(failures + more)
            && WithKey(failures + more, key) == WithKey(failures, key) + WithKey(more, key)
  {
    if more == [] {
      assert failures + more == failures;
    } else {
      var init, last := more[..|more| - 1], more[|more| - 1];
      assert (failures + more)[..|failures + more| - 1] == failures + init;
      assert (failures + more)[|failures + more| - 1] == last;
      GroupingGrows(failures, init, key);
    }
  }

  lemma TurnsNext(b: Board, gs: seq<seq<Attempt>>, k: nat, max: string -> int)
    requires k < |gs|
    ensures Turns(b, gs[..k + 1], max) == Turn(Turns(b, gs[..k], max), gs[k], max)
  {
    assert gs[..k + 1][..k] == gs[..k];
  }

  class ThreatDetectionWorker {
    var users: seq<User>
    var events: seq<LockEvent>
    var audits: seq<LockAudit>

    ghost function View(): Board
      reads this
    {
      Board(users, events, audits)
    }

    /** The grouping loop: a Map from key to attempts, with its keys in insertion order. */
    method Group(failures: seq<Attempt>) returns (keys: seq<string>, groups: map<string, seq<Attempt>>)
      ensures keys == KeysOf(failures)
      ensures forall k :: k in groups <==> k in keys
      ensures forall k :: k in groups ==> groups[k] == WithKey(failures, k)
    {
      keys, groups := [], map[];
      for i := 0 to |failures|
        invariant keys == KeysOf(failures[..i])
        invariant forall k :: k in groups <==> k in keys
        invariant forall k :: k in groups ==> groups[k] == WithKey(failures[..i], k)
      {
        var key := GroupKey(failures[i]);
        assert failures[..i + 1][..i] == failures[..i];
        KeysOfMembers(failures[..i], key);
        if key !in groups {
          keys := keys + [key];
          groups := groups[key := []];
        }
        groups := groups[key := groups[key] + [failures[i]]];
      }
      assert failures[..|failures|] == failures;
    }

    /** The body of the locking loop, for one group. */
    method LockIfOver(g: seq<Attempt>, max: string -> int)
      requires g != []
      modifies this
      ensures View() == Turn(old(View()), g, max)
    {
      var tenantId, identifier := g[0].tenantId, g[0].identifier;
      var maxFailures := if max(tenantId) == 0 then 5 else max(tenantId);
      if |g| >= maxFailures {
        var found := FirstUnlocked(users, tenantId, identifier);
        if found.Some? {
          var user := users[found.value];
          users := users[found.value := user.(status := Locked)];
          events := events + [LockEvent(tenantId, user.id, |g|)];
          audits := audits + [LockAudit(tenantId, user.id, maxFailures, |g|)];
        }
      }
    }

    method HandleCredentialStuffingDetection(attempts: seq<Attempt>, now: int, max: string -> int)
      modifies this
      ensures View() == Sweep(old(View()), attempts, now, max)
    {
      var recentFailures := FailuresSince(attempts, now - WINDOW);
      if |recentFailures| == 0 {
        return;
      }
      var keys, groups := Group(recentFailures);
      ghost var gs := GroupsOf(recentFailures, keys);
      for k := 0 to |keys|
        invariant View() == Turns(old(View()), gs[..k], max)
      {
        TurnsNext(old(View()), gs, k, max);
        assert gs[k] == groups[keys[k]];
        KeysOfMembers(recentFailures, keys[k]);
        LockIfOver(groups[keys[k]], max);
      }
      assert gs[..|keys|] == gs;
    }
  }

  // ---------------------------------------------------------------- grouping is counting

  /** Failed logins for exactly this tenant and identifier since a time. */
  function CountFailures(attempts: seq<Attempt>, t: string, identifier: string, since: int): nat {
    if attempts == [] then 0
    else
      var a := attempts[|attempts| - 1];
      CountFailures(attempts[..|attempts| - 1], t, identifier, since)
      + (if !a.success && since <= a.createdAt && a.tenantId == t && a.identifier == identifier then 1 else 0)
  }

  /** Tenant ids are UUIDs. */
  predicate PlainTenants(attempts: seq<Attempt>) {
    forall a :: a in attempts ==> ':' !in a.tenantId
  }

  lemma GroupKeyInjective(a: Attempt, t: string, identifier: string)
    requires ':' !in a.tenantId && ':' !in t
    ensures GroupKey(a) == t + ":" + identifier <==> a.tenantId == t && a.identifier == identifier
  {
    if GroupKey(a) == t + ":" + identifier {
      PrefixInjective(a.tenantId, t, ':', a.identifier, identifier);
    }
  }

  /**
   * The string key loses nothing: a group's size is the number of failed logins of exactly that tenant and
   * identifier in the window.
   */
  lemma {:induction false} GroupSizeIsCount(attempts: seq<Attempt>, t: string, identifier: string, since: int)
    requires PlainTenants(attempts) && ':' !in t
    ensures |WithKey(FailuresSince(attempts, since), t + ":" + identifier)|
         == CountFailures(attempts, t, identifier, since)
  {
    if attempts != [] {
      var init, a := attempts[..|attempts| - 1], attempts[|attempts| - 1];
      assert a in attempts && forall x :: x in init ==> x in attempts;
      GroupSizeIsCount(init, t, identifier, since);
      GroupKeyInjective(a, t, identifier);
      if RecentFailure(a, since) {
        assert FailuresSince(attempts, since) == FailuresSince(init, since) + [a];
      } else {
        assert FailuresSince(attempts, since) == FailuresSince(init, since);
      }
    }
  }

  lemma {:induction false} GroupMember(failures: seq<Attempt>, key: string, a: Attempt)
    requires a in WithKey(failures, key)
    ensures a in failures && GroupKey(a) == key
  {
    if a != failures[|failures| - 1] {
      GroupMember(failures[..|failures| - 1], key, a);
    } else if GroupKey(a) != key {
      GroupMember(failures[..|failures| - 1], key, a);
    }
  }

  lemma {:induction false} FailureMember(attempts: seq<Attempt>, since: int, a: Attempt)
    requires a in FailuresSince(attempts, since)
    ensures a in attempts
  {
    if a != attempts[|attempts| - 1] {
      FailureMember(attempts[..|attempts| - 1], since, a);
    }
  }

  /** All of a group belongs to one tenant and identifier. */
  lemma GroupIsOnePair(attempts: seq<Attempt>, t: string, identifier: string, since: int, a: Attempt)
    requires PlainTenants(attempts) && ':' !in t
    requires a in WithKey(FailuresSince(attempts, since), t + ":" + identifier)
    ensures a.tenantId == t && a.identifier == identifier
  {
    GroupMember(FailuresSince(attempts, since), t + ":" + identifier, a);
    FailureMember(attempts, since, a);
    GroupKeyInjective(a, t, identifier);
  }

  // ---------------------------------------------------------------- what a sweep locks

  /** A turn locks one account of an over-threshold pair if any is left to lock, and otherwise changes nothing. */
  lemma TurnLocksOne(b: Board, g: seq<Attempt>, max: string -> int)
    requires g != []
    ensures var b' := Turn(b, g, max);
            if |g| >= (if max(g[0].tenantId) == 0 then 5 else max(g[0].tenantId))
               && exists u :: u in b.users && Lockable(u, g[0])
            then exists n :: 0 <= n < |b.users| && LocksAt(b, b', n, g, max)
            else b' == b
  {
    var found := FirstUnlocked(b.users, g[0].tenantId, g[0].identifier);
    if Over(g, max) && found.Some? {
      assert b.users[found.value] in b.users;
      assert LocksAt(b, Turn(b, g, max), found.value, g, max);
    }
  }

  /** An unlocked account of the attempt's tenant that answers to its identifier. */
  predicate Lockable(u: User, a: Attempt) {
    u.tenantId == a.tenantId && (u.email == Some(a.identifier) || u.username == Some(a.identifier)) && !u.status.Locked?
  }

  /** Account n, the first unlocked one of this pair, is locked, with one event and one audit row; nothing else. */
  predicate LocksAt(b: Board, b': Board, n: nat, g: seq<Attempt>, max: string -> int)
    requires n < |b.users| && g != []
  {
    && Lockable(b.users[n], g[0]) && (forall m :: 0 <= m < n ==> !Lockable(b.users[m], g[0]))
    && b'.users == b.users[n := b.users[n].(status := Locked)]
    && b'.events == b.events + [LockEvent(g[0].tenantId, b.users[n].id, |g|)]
    && b'.audits == b.audits + [LockAudit(g[0].tenantId, b.users[n].id,
                                         if max(g[0].tenantId) == 0 then 5 else max(g[0].tenantId), |g|)]
  }

  /** The group is over the threshold, has this many attempts, and is the account's. */
  predicate Justifies(g: seq<Attempt>, u: User, size: nat, max: string -> int) {
    g != [] && Over(g, max) && |g| == size && Named(u, g[0].tenantId, g[0].identifier)
  }

  /**
   * `locked` lists the accounts locked between two boards, in order, each reported once in either log, with the number
   * of attempts, which is at least the limit.
   */
  ghost predicate Ledger(b: Board, b': Board, locked: seq<nat>, max: string -> int) {
    && |b'.users| == |b.users|
    && (forall j :: 0 <= j < |locked| ==> locked[j] < |b.users|)
    && (forall i, j :: 0 <= i < j < |locked| ==> locked[i] != locked[j])
    && (forall n :: 0 <= n < |b.users| ==>
          b'.users[n] == if n in locked then b.users[n].(status := Locked) else b.users[n])
    && (forall n :: n in locked ==> !b.users[n].status.Locked?)
    && |b'.events| == |b.events| + |locked| && b'.events[..|b.events|] == b.events
    && |b'.audits| == |b.audits| + |locked| && b'.audits[..|b.audits|] == b.audits
    && (forall j :: 0 <= j < |locked| ==>
          var u, size := b.users[locked[j]], b'.events[|b.events| + j].failedAttempts;
          var limit := if max(u.tenantId) == 0 then 5 else max(u.tenantId);
          && size >= limit && size > 0
          && b'.events[|b.events| + j] == LockEvent(u.tenantId, u.id, size)
          && b'.audits[|b.audits| + j] == LockAudit(u.tenantId, u.id, limit, size))
  }

  lemma LedgerSnoc(b: Board, b1: Board, locked: seq<nat>, b2: Board, n: nat, g: seq<Attempt>, max: string -> int)
    requires Ledger(b, b1, locked, max) && n < |b1.users| && g != [] && LocksAt(b1, b2, n, g, max) && Over(g, max)
    ensures Ledger(b, b2, locked + [n], max)
  {
    assert n !in locked;
    assert b1.users[n].tenantId == b.users[n].tenantId && b1.users[n].id == b.users[n].id;
  }

  /**
   * Over a whole locking loop: each newly locked account matches an over-threshold pair and gets exactly one
   * event and one audit row, in the order of locking; no other account changes.
   */
  lemma {:induction false} TurnsLedger(b: Board, gs: seq<seq<Attempt>>, max: string -> int)
    returns (locked: seq<nat>, causes: seq<seq<Attempt>>)
    requires forall g :: g in gs ==> g != []
    ensures Ledger(b, Turns(b, gs, max), locked, max) && |causes| == |locked|
    ensures forall j :: 0 <= j < |locked| ==>
              causes[j] in gs
              && Justifies(causes[j], b.users[locked[j]], Turns(b, gs, max).events[|b.events| + j].failedAttempts, max)
  {
    locked, causes := [], [];
    if gs != [] {
      var init, g := gs[..|gs| - 1], gs[|gs| - 1];
      assert g in gs && forall x :: x in init ==> x in gs;
      locked, causes := TurnsLedger(b, init, max);
      var b1 := Turns(b, init, max);
      var found := FirstUnlocked(b1.users, g[0].tenantId, g[0].identifier);
      if Over(g, max) && found.Some? {
        LedgerSnoc(b, b1, locked, Turns(b, gs, max), found.value, g, max);
        locked, causes := locked + [found.value], causes + [g];
      }
    }
  }

  /** A locked account stays locked through the rest of the loop. */
  lemma {:induction false} LockedStays(b: Board, gs: seq<seq<Attempt>>, max: string -> int, n: nat)
    requires n < |b.users| && b.users[n].status.Locked?
    ensures |Turns(b, gs, max).users| == |b.users| && Turns(b, gs, max).users[n] == b.users[n]
  {
    if gs != [] {
      LockedStays(b, gs[..|gs| - 1], max, n);
    }
  }

  /** Accounts keep their tenant and names. */
  lemma {:induction false} TurnsKeepNames(b: Board, gs: seq<seq<Attempt>>, max: string -> int)
    ensures |Turns(b, gs, max).users| == |b.users|
    ensures forall n, t, i :: 0 <= n < |b.users| ==> Named(Turns(b, gs, max).users[n], t, i) == Named(b.users[n], t, i)
  {
    if gs != [] {
      TurnsKeepNames(b, gs[..|gs| - 1], max);
    }
  }

  /** After an over-threshold pair's turn, an account of that pair is locked, if the pair has one at all. */
  lemma {:induction false} OverThresholdLocks(b: Board, gs: seq<seq<Attempt>>, max: string -> int, k: nat, n: nat)
    requires k < |gs| && gs[k] != [] && Over(gs[k], max)
    requires n < |b.users| && Named(b.users[n], gs[k][0].tenantId, gs[k][0].identifier)
    ensures exists u :: u in Turns(b, gs, max).users && u.status.Locked?
                        && Named(u, gs[k][0].tenantId, gs[k][0].identifier)
    decreases |gs|
  {
    var init, g := gs[..|gs| - 1], gs[|gs| - 1];
    var b1 := Turns(b, init, max);
    TurnsKeepNames(b, init, max);
    if k < |gs| - 1 {
      OverThresholdLocks(b, init, max, k, n);
      var u :| u in b1.users && u.status.Locked? && Named(u, gs[k][0].tenantId, gs[k][0].identifier);
      var m :| 0 <= m < |b1.users| && b1.users[m] == u;
      assert Turn(b1, g, max).users[m] == u;
    } else {
      var found := FirstUnlocked(b1.users, g[0].tenantId, g[0].identifier);
      if found.Some? {
        var m := found.value;
        assert Turn(b1, g, max).users[m].status.Locked?;
      } else {
        assert Turn(b1, g, max).users[n] == b1.users[n];
      }
    }
  }

  /** This many failed logins of the account's tenant, under one of its names, since a time. */
  ghost predicate FailedLogins(attempts: seq<Attempt>, u: User, size: nat, since: int) {
    exists i :: (u.email == Some(i) || u.username == Some(i)) && size == CountFailures(attempts, u.tenantId, i, since)
  }

  /**
   * One sweep: every account it locks belongs to a tenant and identifier with at least the limit of failed logins in
   * the last five minutes, and is reported exactly once in the outbox and once in the audit log, with their number.
   */
  lemma SweepLedger(b: Board, attempts: seq<Attempt>, now: int, max: string -> int) returns (locked: seq<nat>)
    requires PlainTenants(attempts)
    ensures Ledger(b, Sweep(b, attempts, now, max), locked, max)
    ensures forall j :: 0 <= j < |locked| ==>
              FailedLogins(attempts, b.users[locked[j]],
                           Sweep(b, attempts, now, max).events[|b.events| + j].failedAttempts, now - 5 * 60 * 1000)
  {
    var failures := FailuresSince(attempts, now - WINDOW);
    var keys := KeysOf(failures);
    var gs: seq<seq<Attempt>> := GroupsOf(failures, keys);
    forall g | g in gs ensures g != [] {
      var k :| 0 <= k < |gs| && gs[k] == g;
      KeysOfMembers(failures, keys[k]);
      assert keys[k] in keys;
    }
    var causes;
    locked, causes := TurnsLedger(b, gs, max);
    forall j | 0 <= j < |locked|
      ensures FailedLogins(attempts, b.users[locked[j]],
                           Sweep(b, attempts, now, max).events[|b.events| + j].failedAttempts, now - WINDOW)
    {
      var k: nat :| k < |gs| && gs[k] == causes[j];
      var a := gs[k][0];
      GroupMember(failures, keys[k], a);
      FailureMember(attempts, now - WINDOW, a);
      GroupSizeIsCount(attempts, a.tenantId, a.identifier, now - WINDOW);
    }
  }

  /** Failed logins below the limit, under either of its names, leave an account as it is. */
  lemma BelowLimitLocksNobody(b: Board, attempts: seq<Attempt>, now: int, max: string -> int, n: nat)
    requires PlainTenants(attempts) && n < |b.users|
    requires var u := b.users[n];
             forall i :: u.email == Some(i) || u.username == Some(i) ==>
               CountFailures(attempts, u.tenantId, i, now - 5 * 60 * 1000)
               < if max(u.tenantId) == 0 then 5 else max(u.tenantId)
    ensures n < |Sweep(b, attempts, now, max).users| && Sweep(b, attempts, now, max).users[n] == b.users[n]
  {
    var locked := SweepLedger(b, attempts, now, max);
  }

  /** Every pair over the limit that has an account has a locked one after the sweep. */
  lemma SweepLocks(b: Board, attempts: seq<Attempt>, now: int, max: string -> int, t: string, i: string, n: nat)
    requires PlainTenants(attempts) && ':' !in t
    requires var failed := CountFailures(attempts, t, i, now - 5 * 60 * 1000);
             failed > 0 && failed >= if max(t) == 0 then 5 else max(t)
    requires n < |b.users| && b.users[n].tenantId == t
    requires b.users[n].email == Some(i) || b.users[n].username == Some(i)
    ensures exists u :: u in Sweep(b, attempts, now, max).users && u.status.Locked?
                        && u.tenantId == t && (u.email == Some(i) || u.username == Some(i))
  {
    var failures := FailuresSince(attempts, now - WINDOW);
    var key, keys := t + ":" + i, KeysOf(failures);
    GroupSizeIsCount(attempts, t, i, now - WINDOW);
    KeysOfMembers(failures, key);
    var k :| 0 <= k < |keys| && keys[k] == key;
    var gs: seq<seq<Attempt>> := GroupsOf(failures, keys);
    assert gs[k] == WithKey(failures, key) && gs[k][0] in gs[k];
    GroupIsOnePair(attempts, t, i, now - WINDOW, gs[k][0]);
    OverThresholdLocks(b, gs, max, k, n);
  }
}
