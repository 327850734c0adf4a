/**
 * Who gets in: which passwords are right, said without the functions that check them, and what every login, credential
 * check and registration answers and writes, over every database.
 */
module Credentials {
  import opened Text
  import opened Tables
  import opened SessionSpec
  import opened Outcomes
  import Accounts

  /** A legacy account takes the two legacy spellings, any other the password its hash was made from. */
  predicate RightPassword(u: User, password: string) {
    if u.migration == Legacy
    then password == "legacyPass123" || (|password| >= 7 && password[|password| - 7..] == "_legacy")
    else u.passwordHash.Some? && u.passwordHash.value.plain == password
  }

  /** What a wrong password is told. */
  function WrongPassword(u: User): Error {
    if u.migration != Legacy && u.passwordHash == None then NoPassword else InvalidCredentials
  }

  lemma PasswordJudged(u: User, password: string)
    ensures VerifyError(u, password) == if RightPassword(u, password) then None else Some(WrongPassword(u))
  {
  }

  // ---------------------------------------------------------------- login

  /** The login finds an account that is not locked, and the password is right for it. */
  predicate LetIn(s: Store, c: Call)
    requires c.Login?
  {
    var found := FirstUser(s.users, c.tenantId, c.identifier);
    found.Some? && found.value.status != Locked && RightPassword(found.value, c.password)
  }

  /**
   * A login is let in if and only if the account it finds is not locked and the password is right for it. Then it is
   * answered as any request for a session of that account; otherwise each case has its own error.
   */
  lemma LoginReply(s: Store, c: Call)
    requires c.Login?
    ensures var found := FirstUser(s.users, c.tenantId, c.identifier);
            Step(s, c).reply
            == if LetIn(s, c) then Issue(s, c.tenantId, found.value.id, found.value.email, found.value.username,
                                         c.fingerprint, c.clientId, c.env)
               else Failed(if found.None? then InvalidCredentials
                           else if found.value.status == Locked then AccountLocked else WrongPassword(found.value))
  {
    var found := FirstUser(s.users, c.tenantId, c.identifier);
    if found.Some? {
      PasswordJudged(found.value, c.password);
    }
    if LetIn(s, c) {
      var u := found.value;
      IssueReply(LogAttempt(s, c.tenantId, c.identifier, true, c.env), c.tenantId, u.id, u.email, u.username,
                 c.fingerprint, c.clientId, c.env);
    }
  }

  /** Hence tokens, or at least a session, come out of a login exactly when it is let in and the session's rows fit. */
  lemma LoginIssuesIff(s: Store, c: Call)
    requires c.Login?
    ensures var found := FirstUser(s.users, c.tenantId, c.identifier);
            Step(s, c).reply.Tokens? || (Step(s, c).reply.Failed? && Step(s, c).reply.error.SigningFailed?)
            <==> && found.Some? && found.value.status != Locked && RightPassword(found.value, c.password)
                 && c.env.dpop != BadProof
                 && DeviceFits(s, c.tenantId, found.value.id, c.fingerprint, c.env)
                 && Key(c.tenantId, c.env.sessionId) !in s.sessions
                 && (c.clientId == None || c.clientId == Some("") || Key(c.tenantId, c.clientId.value) in s.clients)
  {
    LoginReply(s, c);
  }

  /** A login leaves one attempt, which succeeded if and only if it was let in, and nothing else if it was not. */
  lemma LoginAttempt(s: Store, c: Call)
    requires c.Login?
    ensures var attempt := Attempt(c.tenantId, c.env.origin.ipAddress, c.identifier, LetIn(s, c), c.env.now);
            && Step(s, c).store.attempts == s.attempts + [attempt]
            && (!LetIn(s, c) ==> Step(s, c).store == s.(attempts := s.attempts + [attempt]))
  {
    var found := FirstUser(s.users, c.tenantId, c.identifier);
    if found.Some? {
      PasswordJudged(found.value, c.password);
    }
    if LetIn(s, c) {
      var u := found.value;
      Accounts.IssueKeepsUsers(LogAttempt(s, c.tenantId, c.identifier, true, c.env), c.tenantId, u.id, u.email,
                               u.username, c.fingerprint, c.clientId, c.env);
    }
  }

  // ---------------------------------------------------------------- credential checks

  /** Rows that stay as they are but for the accounts with this key, which are migrated to this password. */
  predicate MigratedTo(users: seq<User>, users': seq<User>, t: string, id: string, password: string, salt: string) {
    && |users'| == |users|
    && forall i :: 0 <= i < |users| ==>
         var u := users[i];
         users'[i] == if u.tenantId == t && u.id == id
                      then User(t, id, u.email, u.username, Some(Argon2(password, salt)), u.status, Migrated) else u
  }

  lemma {:induction false} MigrationWrites(users: seq<User>, t: string, id: string, password: string, salt: string)
    ensures MigratedTo(users, MigrateUser(users, t, id, Argon2(password, salt)), t, id, password, salt)
  {
    if users != [] {
      MigrationWrites(users[1..], t, id, password, salt);
    }
  }

  /** A check names the account it finds if and only if the password is right, locked or not. */
  lemma VerifyReply(s: Store, c: Call)
    requires c.Verify?
    ensures var found := FirstUser(s.users, c.tenantId, c.identifier);
            Step(s, c).reply == if found.None? then Failed(UserNotFound)
                                else if RightPassword(found.value, c.password) then Reply.Verified(found.value.id)
                                else Failed(WrongPassword(found.value))
  {
    var found := FirstUser(s.users, c.tenantId, c.identifier);
    if found.Some? {
      PasswordJudged(found.value, c.password);
    }
  }

  /** A right password migrates a legacy account to it and reports that once; every other check writes nothing. */
  lemma VerifyRows(s: Store, c: Call)
    requires c.Verify?
    ensures var found, s' := FirstUser(s.users, c.tenantId, c.identifier), Step(s, c).store;
            if found.Some? && found.value.migration == Legacy && RightPassword(found.value, c.password)
            then && MigratedTo(s.users, s'.users, c.tenantId, found.value.id, c.password, c.salt)
                 && s' == s.(users := s'.users,
                             outbox := s.outbox + [OutboxRow(c.tenantId, UserMigrated(found.value.id,
                                                             found.value.email, found.value.username))])
            else s' == s
  {
    var found := FirstUser(s.users, c.tenantId, c.identifier);
    if found.Some? {
      PasswordJudged(found.value, c.password);
      MigrationWrites(s.users, c.tenantId, found.value.id, c.password, c.salt);
    }
  }

  // ---------------------------------------------------------------- registration

  /** An account of the tenant already has this e-mail. */
  predicate EmailTaken(users: seq<User>, t: string, email: Option<string>) {
    email != None && exists u :: u in users && u.tenantId == t && u.email == email
  }

  predicate NameTaken(users: seq<User>, t: string, name: Option<string>) {
    name != None && exists u :: u in users && u.tenantId == t && u.username == name
  }

  lemma RefusedIffTaken(users: seq<User>, u: User)
    ensures RegisterError(users, u)
         == if u.email != Some("") && EmailTaken(users, u.tenantId, u.email) then Some(DuplicateEmail)
            else if u.username != Some("") && NameTaken(users, u.tenantId, u.username) then Some(DuplicateUsername)
            else if EmailTaken(users, u.tenantId, u.email) || NameTaken(users, u.tenantId, u.username)
                    || exists x :: x in users && x.tenantId == u.tenantId && x.id == u.id
            then Some(ConstraintViolation) else None
  {
    UsersSearched(users, u.tenantId, u.id);
    if u.email.Some? {
      UsersSearched(users, u.tenantId, u.email.value);
    }
    if u.username.Some? {
      UsersSearched(users, u.tenantId, u.username.value);
    }
  }

  /** A registration is refused for an e-mail, a name or an id of the tenant already in use, and for nothing else. */
  lemma RegisterReply(s: Store, c: Call)
    requires c.Register?
    ensures Step(s, c).reply
         == if c.newEmail != Some("") && EmailTaken(s.users, c.tenantId, c.newEmail) then Failed(DuplicateEmail)
            else if c.newUsername != Some("") && NameTaken(s.users, c.tenantId, c.newUsername)
            then Failed(DuplicateUsername)
            else if EmailTaken(s.users, c.tenantId, c.newEmail) || NameTaken(s.users, c.tenantId, c.newUsername)
                    || HasUser(s, c.tenantId, c.newId)
            then Failed(ConstraintViolation) else Reply.Verified(c.newId)
  {
    RefusedIffTaken(s.users, NewUser(c.tenantId, c.newEmail, c.newPassword, c.newUsername, c.newId, c.salt));
  }

  /** An accepted registration adds one active account with its event, a refused one nothing. */
  lemma RegisterRows(s: Store, c: Call)
    requires c.Register?
    ensures var hash := if c.newPassword == None || c.newPassword == Some("") then None
                        else Some(Argon2(c.newPassword.value, c.salt));
            var u := User(c.tenantId, c.newId, c.newEmail, c.newUsername, hash, Active, Native);
            Step(s, c).store
            == if Step(s, c).reply.Failed? then s
               else s.(users := s.users + [u],
                       outbox := s.outbox + [OutboxRow(c.tenantId, UserCreated(c.newId, c.newEmail, c.newUsername))])
  {
  }
}
