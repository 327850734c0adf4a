/** Registration, credential checks and just-in-time migration, seen together. */
module Accounts {
  import opened Text
  import opened Tables
  import opened SessionSpec

  lemma {:induction false} FirstUserAppend(users: seq<User>, u: User, t: string, identifier: string)
    ensures FirstUser(users + [u], t, identifier)
         == if FirstUser(users, t, identifier).Some? then FirstUser(users, t, identifier)
            else if Named(u, t, identifier) then Some(u) else None
  {
    if users == [] {
      assert users + [u] == [u];
    } else {
      assert (users + [u])[1..] == users[1..] + [u];
      FirstUserAppend(users[1..], u, t, identifier);
    }
  }

  /** A row as a migration of the account with this key leaves it. */
  function AfterMigration(u: User, t: string, id: string, h: PasswordHash): User {
    if u.tenantId == t && u.id == id then u.(passwordHash := Some(h), migration := Migrated) else u
  }

  /** Migrating an account does not change who answers to an identifier. */
  lemma {:induction false} FirstUserMigrated(users: seq<User>, t': string, id: string, h: PasswordHash,
                                             t: string, identifier: string)
    ensures FirstUser(MigrateUser(users, t', id, h), t, identifier)
         == match FirstUser(users, t, identifier)
            case None => None
            case Some(u) => Some(AfterMigration(u, t', id, h))
  {
    if users != [] {
      var users' := MigrateUser(users, t', id, h);
      assert users'[0] == AfterMigration(users[0], t', id, h);
      assert users'[1..] == MigrateUser(users[1..], t', id, h);
      FirstUserMigrated(users[1..], t', id, h, t, identifier);
    }
  }

  /** All rows with the key of `u` are `u`. */
  predicate OnlyRow(users: seq<User>, u: User) {
    forall x :: x in users && x.tenantId == u.tenantId && x.id == u.id ==> x == u
  }

  lemma {:induction false} OnlyRowMigrates(users: seq<User>, t: string, id: string, h: PasswordHash, u: User)
    requires OnlyRow(users, u)
    ensures OnlyRow(MigrateUser(users, t, id, h), AfterMigration(u, t, id, h))
  {
    if users != [] {
      var users' := MigrateUser(users, t, id, h);
      assert forall x :: x in users[1..] ==> x in users;
      OnlyRowMigrates(users[1..], t, id, h, u);
      assert users'[0] == AfterMigration(users[0], t, id, h) && users[0] in users;
      assert forall x :: x in users' <==> x == users'[0] || x in MigrateUser(users[1..], t, id, h);
    }
  }

  lemma IssueKeepsUsers(s: Store, t: string, u: string, em: Option<string>, n: Option<string>, f: Option<string>,
                        cl: Option<string>, e: Env)
    ensures IssueStep(s, t, u, em, n, f, cl, e).store.users == s.users
    ensures IssueStep(s, t, u, em, n, f, cl, e).store.attempts == s.attempts
  {
    var d := DeviceStep(s, t, u, f, e);
    if d.Some? {
      assert d.value.0.users == s.users && d.value.0.attempts == s.attempts;
    }
  }

  /** Only registrations and credential checks write the user table. */
  lemma StepKeepsUsers(s: Store, c: Call)
    requires !c.Register? && !c.Verify?
    ensures Step(s, c).store.users == s.users
  {
    match c
    case Login(t, i, p, f, cl, e) =>
      var found := FirstUser(s.users, t, i);
      if found.Some? {
        var u := found.value;
        IssueKeepsUsers(LogAttempt(s, t, i, true, e), t, u.id, u.email, u.username, f, cl, e);
      }
    case CreateSession(t, u, em, n, cl, e) => IssueKeepsUsers(s, t, u, em, n, None, cl, e);
    case _ =>
  }

  predicate First(users: seq<User>, u: User, identifier: string) {
    FirstUser(users, u.tenantId, identifier) == Some(u) && OnlyRow(users, u)
  }

  lemma RegisterKeepsFirst(s: Store, c: Call, u: User, identifier: string)
    requires c.Register? && First(s.users, u, identifier)
    ensures First(Step(s, c).store.users, u, identifier)
  {
    var added := NewUser(c.tenantId, c.newEmail, c.newPassword, c.newUsername, c.newId, c.salt);
    FirstUserAppend(s.users, added, u.tenantId, identifier);
    UsersSearched(s.users, c.tenantId, c.newId);
    assert forall x :: x in s.users + [added] <==> x in s.users || x == added;
  }

  lemma VerifyKeepsFirst(s: Store, c: Call, u: User, identifier: string)
    requires c.Verify? && First(s.users, u, identifier) && !u.migration.Legacy?
    ensures First(Step(s, c).store.users, u, identifier)
  {
    var found := FirstUser(s.users, c.tenantId, c.identifier);
    if found.Some? && found.value.migration.Legacy? {
      var f, h := found.value, Argon2(c.password, c.salt);
      assert f.tenantId != u.tenantId || f.id != u.id;
      FirstUserMigrated(s.users, f.tenantId, f.id, h, u.tenantId, identifier);
      OnlyRowMigrates(s.users, f.tenantId, f.id, h, u);
    }
  }

  /** An account that is not legacy, is the first to answer to an identifier and the only one with its key, stays so. */
  lemma StepKeepsFirst(s: Store, c: Call, u: User, identifier: string)
    requires First(s.users, u, identifier) && !u.migration.Legacy?
    ensures First(Step(s, c).store.users, u, identifier)
  {
    if c.Register? {
      RegisterKeepsFirst(s, c, u, identifier);
    } else if c.Verify? {
      VerifyKeepsFirst(s, c, u, identifier);
    } else {
      StepKeepsUsers(s, c);
    }
  }

  function FirstId(users: seq<User>, t: string, identifier: string): Option<string> {
    var u := FirstUser(users, t, identifier);
    if u.Some? then Some(u.value.id) else None
  }

  lemma RegisterKeepsAnswer(s: Store, c: Call, t: string, identifier: string, id: string)
    requires c.Register? && FirstId(s.users, t, identifier) == Some(id)
    ensures FirstId(Step(s, c).store.users, t, identifier) == Some(id)
  {
    var added := NewUser(c.tenantId, c.newEmail, c.newPassword, c.newUsername, c.newId, c.salt);
    FirstUserAppend(s.users, added, t, identifier);
  }

  lemma VerifyKeepsAnswer(s: Store, c: Call, t: string, identifier: string, id: string)
    requires c.Verify? && FirstId(s.users, t, identifier) == Some(id)
    ensures FirstId(Step(s, c).store.users, t, identifier) == Some(id)
  {
    var found := FirstUser(s.users, c.tenantId, c.identifier);
    if found.Some? {
      FirstUserMigrated(s.users, found.value.tenantId, found.value.id, Argon2(c.password, c.salt), t, identifier);
    }
  }

  /** Whoever is the first to answer to an identifier remains so. */
  lemma StepKeepsAnswer(s: Store, c: Call, t: string, identifier: string, id: string)
    requires FirstId(s.users, t, identifier) == Some(id)
    ensures FirstId(Step(s, c).store.users, t, identifier) == Some(id)
  {
    if c.Register? {
      RegisterKeepsAnswer(s, c, t, identifier, id);
    } else if c.Verify? {
      VerifyKeepsAnswer(s, c, t, identifier, id);
    } else {
      StepKeepsUsers(s, c);
    }
  }

  lemma {:induction false} RunKeepsFirst(s: Store, cs: seq<Call>, u: User, identifier: string)
    requires First(s.users, u, identifier) && !u.migration.Legacy?
    ensures FirstUser(Run(s, cs).users, u.tenantId, identifier) == Some(u)
    decreases cs
  {
    if cs != [] {
      StepKeepsFirst(s, cs[0], u, identifier);
      RunKeepsFirst(Step(s, cs[0]).store, cs[1..], u, identifier);
    }
  }

  lemma {:induction false} RunKeepsAnswer(s: Store, cs: seq<Call>, t: string, identifier: string, id: string)
    requires FirstId(s.users, t, identifier) == Some(id)
    ensures FirstId(Run(s, cs).users, t, identifier) == Some(id)
    decreases cs
  {
    if cs != [] {
      StepKeepsAnswer(s, cs[0], t, identifier, id);
      RunKeepsAnswer(Step(s, cs[0]).store, cs[1..], t, identifier, id);
    }
  }

  /**
   * After a registration and any further calls, the new account is the one its password verifies, under its e-mail and
   * under its username alike, exactly when no account registered before it answers to that identifier. The uniqueness
   * checks compare e-mails with e-mails and usernames with usernames, so an older account may carry the new e-mail as
   * its username, or the new username as its e-mail, and is then found first. The query asks for no order; the model
   * takes the oldest match, and `UniqueAnswersInAnyOrder` shows that one half of this does not depend on it: where no
   * older account answers, every order finds the new one. Where one does, another order could find either.
   */
  lemma RegisteredVerifiesIff(s: Store, c: Call, cs: seq<Call>, identifier: string, salt: string)
    requires c.Register? && Truthy(c.newPassword).Some? && Step(s, c).reply == Verified(c.newId)
    requires c.newEmail == Some(identifier) || c.newUsername == Some(identifier)
    ensures VerifyStep(Run(Step(s, c).store, cs), c.tenantId, identifier, c.newPassword.value, salt).reply
            == Verified(c.newId)
            <==> FirstUser(s.users, c.tenantId, identifier).None?
  {
    var u := NewUser(c.tenantId, c.newEmail, c.newPassword, c.newUsername, c.newId, c.salt);
    FirstUserAppend(s.users, u, c.tenantId, identifier);
    UsersSearched(s.users, c.tenantId, c.newId);
    if FirstUser(s.users, c.tenantId, identifier).Some? {
      var older := FirstUser(s.users, c.tenantId, identifier).value;
      RunKeepsAnswer(Step(s, c).store, cs, c.tenantId, identifier, older.id);
    } else {
      assert forall x :: x in s.users + [u] <==> x in s.users || x == u;
      RunKeepsFirst(Step(s, c).store, cs, u, identifier);
    }
  }

  /** In whatever order the rows stand, the new account is found first if and only if no older one answers. */
  lemma UniqueAnswersInAnyOrder(users: seq<User>, u: User, identifier: string)
    requires Named(u, u.tenantId, identifier) && u !in users
    ensures (forall rows :: multiset(rows) == multiset(users + [u]) ==>
               FirstUser(rows, u.tenantId, identifier) == Some(u))
            <==> FirstUser(users, u.tenantId, identifier).None?
  {
    FirstUserAppend(users, u, u.tenantId, identifier);
    forall rows | multiset(rows) == multiset(users + [u]) && FirstUser(users, u.tenantId, identifier).None?
      ensures FirstUser(rows, u.tenantId, identifier) == Some(u)
    {
      UsersSearched(rows, u.tenantId, identifier);
      UsersSearched(users, u.tenantId, identifier);
      assert forall x :: x in rows <==> x in multiset(users + [u]);
      assert forall x :: x in users + [u] <==> x in multiset(users + [u]);
      assert u in users + [u];
    }
    if FirstUser(users, u.tenantId, identifier).Some? {
      assert FirstUser(users + [u], u.tenantId, identifier) != Some(u);
    }
  }

  /** It happens: an account without e-mail whose username is the address a second account registers with. */
  lemma EmailShadowed(t: string, clients: set<Key>)
    ensures var older := User(t, "1", None, Some("a@b"), Some(Argon2("x", "s")), Active, Native);
            var s := Store([older], [], map[], {}, [], [], [], clients);
            var o := RegisterStep(s, t, Some("a@b"), Some("y"), None, "2", "s");
            && o.reply == Verified("2")
            && VerifyStep(o.store, t, "a@b", "y", "s").reply == Failed(InvalidCredentials)
            && VerifyStep(o.store, t, "a@b", "x", "s").reply == Verified("1")
  {
    var older := User(t, "1", None, Some("a@b"), Some(Argon2("x", "s")), Active, Native);
    var u := NewUser(t, Some("a@b"), Some("y"), None, "2", "s");
    assert UserByEmail([older], t, "a@b").None?;
    FirstUserAppend([older], u, t, "a@b");
    assert Named(older, t, "a@b");
  }

  /**
   * The legacy rule admits an account once, as far as uninterrupted checks go: after a successful check of a legacy
   * account, the account answers to the password it was migrated with and to no other, with or without a legacy
   * suffix, and no further check migrates it again.
   */
  lemma MigratesOnce(s: Store, t: string, identifier: string, password: string, salt: string,
                     later: string, salt': string)
    requires FirstUser(s.users, t, identifier).Some? && FirstUser(s.users, t, identifier).value.migration.Legacy?
    requires VerifyStep(s, t, identifier, password, salt).reply.Verified?
    ensures var s1 := VerifyStep(s, t, identifier, password, salt).store;
            var o := VerifyStep(s1, t, identifier, later, salt');
            && o.store == s1
            && (o.reply == Verified(FirstUser(s.users, t, identifier).value.id) <==> later == password)
  {
    var u := FirstUser(s.users, t, identifier).value;
    FirstUserMigrated(s.users, u.tenantId, u.id, Argon2(password, salt), t, identifier);
  }

  /** And so it stays through any further calls, the table having one row for each key. */
  lemma MigratedForGood(s: Store, t: string, identifier: string, password: string, salt: string, cs: seq<Call>,
                        later: string, salt': string)
    requires FirstUser(s.users, t, identifier).Some? && FirstUser(s.users, t, identifier).value.migration.Legacy?
    requires OnlyRow(s.users, FirstUser(s.users, t, identifier).value)
    requires VerifyStep(s, t, identifier, password, salt).reply.Verified?
    ensures var s1 := Run(VerifyStep(s, t, identifier, password, salt).store, cs);
            var o := VerifyStep(s1, t, identifier, later, salt');
            && o.store == s1
            && (o.reply == Verified(FirstUser(s.users, t, identifier).value.id) <==> later == password)
  {
    var u, h := FirstUser(s.users, t, identifier).value, Argon2(password, salt);
    FirstUserMigrated(s.users, u.tenantId, u.id, h, t, identifier);
    OnlyRowMigrates(s.users, u.tenantId, u.id, h, u);
    RunKeepsFirst(VerifyStep(s, t, identifier, password, salt).store, cs, AfterMigration(u, t, u.id, h), identifier);
  }
}
