/** Just-in-time migration when credential checks of one account overlap. */
module AccountSchedules {
  import opened Text
  import opened Tables
  import opened SessionSpec
  import opened Interleaving
  import opened Concurrency
  import opened Accounts
  import Crash

  /** The next database call of this process saves the migration of the account with this key. */
  predicate Saves(pc: Pc, t: string, id: string) {
    pc.AtUser? && pc.user.SaveMigration? && pc.user.user.tenantId == t && pc.user.user.id == id
  }

  lemma UserCallFirst(s: Store, c: Call, pc: UserPc, t: string, identifier: string)
    requires UserFits(c, pc) && FirstUser(s.users, t, identifier).Some?
    ensures var u, n := FirstUser(s.users, t, identifier).value, StepUser(s, c, pc);
            FirstUser(n.store.users, t, identifier)
            == Some(if Saves(AtUser(pc), u.tenantId, u.id)
                    then u.(passwordHash := Some(Argon2(c.password, c.salt)), migration := Migrated) else u)
  {
    match pc
    case AddUser(added) => FirstUserAppend(s.users, added, t, identifier);
    case SaveMigration(x) => FirstUserMigrated(s.users, x.tenantId, x.id, Argon2(c.password, c.salt), t, identifier);
    case _ =>
  }

  /** Who answers to an identifier goes on doing so, and is migrated exactly by the call that saves it. */
  lemma AdvanceFirst(s: Store, c: Call, pc: Pc, t: string, identifier: string)
    requires Fits(c, pc) && FirstUser(s.users, t, identifier).Some?
    ensures var u := FirstUser(s.users, t, identifier).value;
            var r := FirstUser(Advance(s, c, pc).store.users, t, identifier);
            && r.Some? && r.value.tenantId == u.tenantId && r.value.id == u.id
            && (r.value.migration.Legacy? <==> u.migration.Legacy? && !Saves(pc, u.tenantId, u.id))
  {
    if pc.AtUser? {
      UserCallFirst(s, c, pc.user, t, identifier);
    } else {
      Crash.OthersKeepUsers(s, c, pc);
    }
  }

  /** Some step of the schedule saves the migration of the account. */
  predicate SavedDuring(c: Config, acts: seq<Act>, t: string, id: string)
    requires Valid(c)
    decreases acts
  {
    acts != []
    && ((acts[0].Resume? && acts[0].i < |c.procs| && Saves(c.procs[acts[0].i].pc, t, id))
        || SavedDuring(Act1(c, acts[0]), acts[1..], t, id))
  }

  lemma {:induction false} ExecFirst(c: Config, acts: seq<Act>, t: string, identifier: string)
    requires Valid(c) && FirstUser(c.store.users, t, identifier).Some?
    ensures var u, r := FirstUser(c.store.users, t, identifier).value,
                        FirstUser(Exec(c, acts).store.users, t, identifier);
            && r.Some? && r.value.tenantId == u.tenantId && r.value.id == u.id
            && (r.value.migration.Legacy? <==> u.migration.Legacy? && !SavedDuring(c, acts, u.tenantId, u.id))
    decreases acts
  {
    if acts != [] {
      if acts[0].Resume? && acts[0].i < |c.procs| {
        AdvanceFirst(c.store, c.procs[acts[0].i].call, c.procs[acts[0].i].pc, t, identifier);
      }
      ExecFirst(Act1(c, acts[0]), acts[1..], t, identifier);
    }
  }

  /**
   * A legacy account, and a check of it with a password the legacy rule admits, which after some schedule comes to
   * read the account. It goes on to migrate the account if and only if no other check has saved a migration of it
   * before that read.
   */
  lemma MigratesIffReadsFirst(c: Config, acts: seq<Act>, j: nat)
    requires Valid(c) && j < |Exec(c, acts).procs|
    requires var p := Exec(c, acts).procs[j];
             && p.call.Verify? && p.pc == AtUser(FindVerify) && LegacyAccepts(p.call.password)
             && FirstUser(c.store.users, p.call.tenantId, p.call.identifier).Some?
             && FirstUser(c.store.users, p.call.tenantId, p.call.identifier).value.migration.Legacy?
    ensures var p := Exec(c, acts).procs[j];
            var u := FirstUser(c.store.users, p.call.tenantId, p.call.identifier).value;
            Saves(Advance(Exec(c, acts).store, p.call, p.pc).pc, u.tenantId, u.id)
            <==> !SavedDuring(c, acts, u.tenantId, u.id)
  {
    var p := Exec(c, acts).procs[j];
    ExecFirst(c, acts, p.call.tenantId, p.call.identifier);
  }

  function BothRead(v1: Call, v2: Call): seq<Act> {
    [Begin(v1), Begin(v2), Resume(0), Resume(1)]
  }

  function EachOnce(): seq<Act> {
    [Resume(0), Resume(1)]
  }

  lemma BothReadLegacy(s: Store, v1: Call, v2: Call)
    requires v1.Verify? && v2.Verify? && v1.tenantId == v2.tenantId && v1.identifier == v2.identifier
    requires FirstUser(s.users, v1.tenantId, v1.identifier).Some?
    requires FirstUser(s.users, v1.tenantId, v1.identifier).value.migration.Legacy?
    requires LegacyAccepts(v1.password) && LegacyAccepts(v2.password)
    ensures var save := AtUser(SaveMigration(FirstUser(s.users, v1.tenantId, v1.identifier).value));
            Exec(Config(s, []), BothRead(v1, v2)) == Config(s, [Proc(v1, save), Proc(v2, save)])
  {
    var acts, c0 := BothRead(v1, v2), Config(s, []);
    var c1 := Act1(c0, acts[0]);
    var c2 := Act1(c1, acts[1]);
    var c3 := Act1(c2, acts[2]);
    var c4 := Act1(c3, acts[3]);
    assert Exec(c0, acts) == c4 by {
      ExecCons(c0, acts);
      ExecCons(c1, acts[1..]);
      ExecCons(c2, acts[2..]);
      ExecCons(c3, acts[3..]);
    }
  }

  lemma BothSave(s: Store, v1: Call, v2: Call, u: User)
    requires v1.Verify? && v2.Verify?
    ensures var users := MigrateUser(MigrateUser(s.users, u.tenantId, u.id, Argon2(v1.password, v1.salt)),
                                     u.tenantId, u.id, Argon2(v2.password, v2.salt));
            var save, report := AtUser(SaveMigration(u)), AtUser(ReportMigration(u));
            Exec(Config(s, [Proc(v1, save), Proc(v2, save)]), EachOnce())
            == Config(s.(users := users), [Proc(v1, report), Proc(v2, report)])
  {
    var acts, save, report := EachOnce(), AtUser(SaveMigration(u)), AtUser(ReportMigration(u));
    var users1 := MigrateUser(s.users, u.tenantId, u.id, Argon2(v1.password, v1.salt));
    var users2 := MigrateUser(users1, u.tenantId, u.id, Argon2(v2.password, v2.salt));
    var c0 := Config(s, [Proc(v1, save), Proc(v2, save)]);
    var c1 := Act1(c0, acts[0]);
    assert c1 == Config(s.(users := users1), [Proc(v1, report), Proc(v2, save)]);
    var c2 := Act1(c1, acts[1]);
    assert c2 == Config(s.(users := users2), [Proc(v1, report), Proc(v2, report)]);
    assert Exec(c0, acts) == c2 by {
      ExecCons(c0, acts);
      ExecCons(c1, acts[1..]);
    }
  }

  lemma BothReport(s: Store, v1: Call, v2: Call, u: User)
    requires v1.Verify? && v2.Verify?
    ensures var report, done := AtUser(ReportMigration(u)), Finished(Verified(u.id));
            var migrated := UserMigrated(u.id, u.email, u.username);
            Exec(Config(s, [Proc(v1, report), Proc(v2, report)]), EachOnce())
            == Config(AppendEvent(AppendEvent(s, u.tenantId, migrated), u.tenantId, migrated),
                      [Proc(v1, done), Proc(v2, done)])
  {
    var acts, report := EachOnce(), AtUser(ReportMigration(u));
    var c0 := Config(s, [Proc(v1, report), Proc(v2, report)]);
    var c1 := Act1(c0, acts[0]);
    var c2 := Act1(c1, acts[1]);
    assert Exec(c0, acts) == c2 by {
      ExecCons(c0, acts);
      ExecCons(c1, acts[1..]);
    }
  }

  /** Where that schedule ends. */
  lemma BothMigrate(s: Store, v1: Call, v2: Call, u: User)
    requires v1.Verify? && v2.Verify? && v1.tenantId == v2.tenantId && v1.identifier == v2.identifier
    requires FirstUser(s.users, v1.tenantId, v1.identifier) == Some(u) && u.migration.Legacy?
    requires LegacyAccepts(v1.password) && LegacyAccepts(v2.password)
    ensures var users := MigrateUser(MigrateUser(s.users, u.tenantId, u.id, Argon2(v1.password, v1.salt)),
                                     u.tenantId, u.id, Argon2(v2.password, v2.salt));
            var done, migrated := Finished(Verified(u.id)), UserMigrated(u.id, u.email, u.username);
            Exec(Config(s, []), BothRead(v1, v2) + (EachOnce() + EachOnce()))
            == Config(AppendEvent(AppendEvent(s.(users := users), u.tenantId, migrated), u.tenantId, migrated),
                      [Proc(v1, done), Proc(v2, done)])
  {
    var users := MigrateUser(MigrateUser(s.users, u.tenantId, u.id, Argon2(v1.password, v1.salt)),
                             u.tenantId, u.id, Argon2(v2.password, v2.salt));
    var save, report := AtUser(SaveMigration(u)), AtUser(ReportMigration(u));
    var done, migrated := Finished(Verified(u.id)), UserMigrated(u.id, u.email, u.username);
    var saved := s.(users := users);
    BothReadLegacy(s, v1, v2);
    BothSave(s, v1, v2, u);
    BothReport(saved, v1, v2, u);
    var c1 := Config(s, [Proc(v1, save), Proc(v2, save)]);
    ExecAppend(Config(s, []), BothRead(v1, v2), EachOnce() + EachOnce());
    ExecAppend(c1, EachOnce(), EachOnce());
  }

  /**
   * It happens: two overlapping checks of a legacy account with different passwords both succeed and both report a
   * migration, and only the password of the second remains.
   */
  lemma MigratesTwice(s: Store, v1: Call, v2: Call)
    requires v1.Verify? && v2.Verify? && v1.tenantId == v2.tenantId && v1.identifier == v2.identifier
    requires FirstUser(s.users, v1.tenantId, v1.identifier).Some?
    requires FirstUser(s.users, v1.tenantId, v1.identifier).value.migration.Legacy?
    requires LegacyAccepts(v1.password) && LegacyAccepts(v2.password)
    ensures var u := FirstUser(s.users, v1.tenantId, v1.identifier).value;
            var c := Exec(Config(s, []), BothRead(v1, v2) + (EachOnce() + EachOnce()));
            var row := OutboxRow(u.tenantId, UserMigrated(u.id, u.email, u.username));
            && c.procs == [Proc(v1, Finished(Verified(u.id))), Proc(v2, Finished(Verified(u.id)))]
            && c.store.outbox == s.outbox + [row, row]
            && FirstUser(c.store.users, v1.tenantId, v1.identifier)
               == Some(u.(passwordHash := Some(Argon2(v2.password, v2.salt)), migration := Migrated))
  {
    var t, u := v1.tenantId, FirstUser(s.users, v1.tenantId, v1.identifier).value;
    var h1, h2 := Argon2(v1.password, v1.salt), Argon2(v2.password, v2.salt);
    BothMigrate(s, v1, v2, u);
    FirstUserMigrated(s.users, u.tenantId, u.id, h1, t, v1.identifier);
    FirstUserMigrated(MigrateUser(s.users, u.tenantId, u.id, h1), u.tenantId, u.id, h2, t, v1.identifier);
  }
}
