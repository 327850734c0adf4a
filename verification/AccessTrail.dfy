/**
 * Product accesses and their audit entries are written by separate database calls. Under every schedule, with calls
 * stopped anywhere, the accesses without an audit entry are exactly those of the calls that have written the one and
 * not yet the other.
 */
module AccessTrail {
  import opened Text
  import opened Tables
  import opened SessionSpec
  import opened SessionEffects
  import opened Interleaving
  import opened Concurrency
  import opened Replay

  /** The access this call has recorded and still has to audit. */
  function Owed(c: Call, pc: Pc): Option<Access>
    requires Fits(c, pc)
  {
    match pc
    case AtAccess(AuditAccess(sid, _, cl, _)) => Some(Access(c.tenantId, sid, cl))
    case AtLogin(AuditFirstAccess(_, cl)) => Some(Access(c.tenantId, c.env.sessionId, cl))
    case _ => None
  }

  function One(b: bool): nat {
    if b then 1 else 0
  }

  /** How many calls have recorded this access and still have to audit it. */
  function CallsOwing(procs: seq<Proc>, a: Access): nat
    requires forall i :: 0 <= i < |procs| ==> Fits(procs[i].call, procs[i].pc)
  {
    if procs == [] then 0
    else CallsOwing(procs[..|procs| - 1], a)
         + One(Owed(procs[|procs| - 1].call, procs[|procs| - 1].pc) == Some(a))
  }

  /** How many audit entries report this access. */
  function Entries(audits: seq<Audit>, a: Access): nat {
    if audits == [] then 0 else Entries(audits[..|audits| - 1], a) + One(audits[|audits| - 1].access == a)
  }

  lemma {:induction false} OwingUpdate(procs: seq<Proc>, i: nat, p: Proc, a: Access)
    requires i < |procs| && Fits(p.call, p.pc)
    requires forall j :: 0 <= j < |procs| ==> Fits(procs[j].call, procs[j].pc)
    ensures CallsOwing(procs[i := p], a) + One(Owed(procs[i].call, procs[i].pc) == Some(a))
         == CallsOwing(procs, a) + One(Owed(p.call, p.pc) == Some(a))
  {
    var n := |procs| - 1;
    if i == n {
      assert procs[i := p][..n] == procs[..n];
    } else {
      assert procs[i := p][..n] == procs[..n][i := p];
      OwingUpdate(procs[..n], i, p, a);
    }
  }

  /** The entry the next database call of this process writes. */
  function Audits(c: Call, pc: Pc): Option<Audit>
    requires Fits(c, pc)
  {
    match pc
    case AtAccess(AuditAccess(sid, who, cl, _)) =>
      Some(SsoProductAccess(c.tenantId, who.userId, Access(c.tenantId, sid, cl)))
    case AtLogin(AuditFirstAccess(who, cl)) =>
      Some(SsoProductAccess(c.tenantId, who.userId, Access(c.tenantId, c.env.sessionId, cl)))
    case _ => None
  }

  function Extended(audits: seq<Audit>, x: Option<Audit>): seq<Audit> {
    if x.Some? then audits + [x.value] else audits
  }

  lemma AccessWrites(s: Store, c: Call, pc: AccessPc)
    requires pc.next.ThenSign? ==> c.Refresh?
    ensures var n := StepAccess(s, c, pc);
            && n.store.audits == Extended(s.audits, Audits(c, AtAccess(pc)))
            && Owed(c, n.pc) == AddedAccess(s, c, AtAccess(pc))
  {
  }

  lemma OthersWriteNone(s: Store, c: Call, pc: Pc)
    requires Fits(c, pc) && !pc.AtLogin? && !pc.AtAccess?
    ensures Advance(s, c, pc).store.audits == s.audits && Owed(c, Advance(s, c, pc).pc).None?
  {
  }

  /** A database call owes the access it adds, and writes the entry it owed. */
  lemma AdvanceWrites(s: Store, c: Call, pc: Pc)
    requires Fits(c, pc)
    ensures var n := Advance(s, c, pc);
            && n.store.audits == Extended(s.audits, Audits(c, pc))
            && Owed(c, n.pc) == AddedAccess(s, c, pc)
  {
    match pc
    case AtLogin(_) =>
    case AtAccess(x) => AccessWrites(s, c, x);
    case _ => OthersWriteNone(s, c, pc);
  }

  lemma TrailBalances(audits: seq<Audit>, written: Option<Audit>, owed: Option<Access>, added: Option<Access>,
                      accesses: set<Access>, a: Access)
    requires owed == (if written.Some? then Some(written.value.access) else None)
    requires added.Some? ==> added.value !in accesses
    ensures Entries(Extended(audits, written), a) + One(added == Some(a)) + One(a in accesses)
         == Entries(audits, a) + One(owed == Some(a)) + One(a in accesses + if added.Some? then {added.value} else {})
  {
  }

  /** What a database call records it owes, and what it owed it audits. */
  lemma AdvanceTrail(s: Store, c: Call, pc: Pc, a: Access)
    requires Fits(c, pc)
    ensures var n := Advance(s, c, pc);
            Entries(n.store.audits, a) + One(Owed(c, n.pc) == Some(a)) + One(a in s.accesses)
            == Entries(s.audits, a) + One(Owed(c, pc) == Some(a)) + One(a in n.store.accesses)
  {
    AdvanceWrites(s, c, pc);
    TrailBalances(s.audits, Audits(c, pc), Owed(c, pc), AddedAccess(s, c, pc), s.accesses, a);
  }

  /** A call about to record an access works on a session that exists. */
  predicate Rooted(c: Call, pc: Pc, m: map<Key, Session>)
    requires Fits(c, pc)
  {
    match pc
    case AtAccess(a) => Key(c.tenantId, a.sid) in m
    case AtLogin(l) => l.AddFirstAccess? ==> Key(c.tenantId, c.env.sessionId) in m
    case _ => true
  }

  lemma OthersRooted(s: Store, c: Call, pc: Pc)
    requires Fits(c, pc) && !pc.AtLogin? && !pc.AtRefresh? && Rooted(c, pc, s.sessions)
    ensures Rooted(c, Advance(s, c, pc).pc, Advance(s, c, pc).store.sessions)
  {
  }

  lemma AdvanceRooted(s: Store, c: Call, pc: Pc)
    requires Fits(c, pc) && Rooted(c, pc, s.sessions)
    ensures Rooted(c, Advance(s, c, pc).pc, Advance(s, c, pc).store.sessions)
  {
    match pc
    case AtLogin(_) =>
    case AtRefresh(_) =>
    case _ => OthersRooted(s, c, pc);
  }

  /** One access is either absent, or audited once, or recorded by one call that has yet to audit it. */
  ghost predicate Balances(c: Config, a: Access)
    requires Valid(c)
  {
    Entries(c.store.audits, a) + CallsOwing(c.procs, a) == One(a in c.store.accesses)
  }

  ghost predicate AllRooted(c: Config)
    requires Valid(c)
  {
    forall i :: 0 <= i < |c.procs| ==> Rooted(c.procs[i].call, c.procs[i].pc, c.store.sessions)
  }

  lemma Act1Balances(c: Config, act: Act, a: Access)
    requires Valid(c) && Balances(c, a)
    ensures Balances(Act1(c, act), a)
  {
    match act
    case Begin(_) =>
    case Resume(i) =>
      if i < |c.procs| {
        var p := c.procs[i];
        AdvanceTrail(c.store, p.call, p.pc, a);
        OwingUpdate(c.procs, i, p.(pc := Advance(c.store, p.call, p.pc).pc), a);
      }
  }

  lemma Act1Rooted(c: Config, act: Act)
    requires Valid(c) && AllRooted(c) && AccessesNameSessions(c.store)
    ensures AllRooted(Act1(c, act)) && AccessesNameSessions(Act1(c, act).store)
  {
    if act.Resume? && act.i < |c.procs| {
      var p := c.procs[act.i];
      AdvanceRooted(c.store, p.call, p.pc);
      AdvanceGrows(c.store, p.call, p.pc);
    }
  }

  lemma {:induction false} ExecTrail(c: Config, acts: seq<Act>, a: Access)
    requires Valid(c) && Balances(c, a) && AllRooted(c) && AccessesNameSessions(c.store)
    ensures Balances(Exec(c, acts), a) && AccessesNameSessions(Exec(c, acts).store)
    decreases acts
  {
    if acts != [] {
      Act1Balances(c, acts[0], a);
      Act1Rooted(c, acts[0]);
      ExecTrail(Act1(c, acts[0]), acts[1..], a);
    }
  }

  lemma {:induction false} EntriesAudited(audits: seq<Audit>, a: Access)
    ensures Entries(audits, a) == Audited(audits)[a]
  {
    if audits != [] {
      var n := |audits| - 1;
      EntriesAudited(audits[..n], a);
      AuditedAppend(audits[..n], audits[n]);
      assert audits[..n] + [audits[n]] == audits;
    }
  }

  /**
   * From tables in which accesses and audit entries correspond, after every schedule: every access is audited exactly
   * once, or not yet and exactly one call that is in progress, or stopped for good, has still to audit it; nothing
   * else is audited; and every access names an existing session.
   */
  lemma AccountedThroughout(s: Store, acts: seq<Act>, a: Access)
    requires Accounted(s)
    ensures var c := Exec(Config(s, []), acts);
            && Audited(c.store.audits)[a] + CallsOwing(c.procs, a) == One(a in c.store.accesses)
            && AccessesNameSessions(c.store)
  {
    EntriesAudited(s.audits, a);
    ExecTrail(Config(s, []), acts, a);
    EntriesAudited(Exec(Config(s, []), acts).store.audits, a);
  }
}
