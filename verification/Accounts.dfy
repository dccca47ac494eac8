/** Accounts: creation, profile and password changes, deletion, and Basic authentication against
    the stored secrets. */
module Accounts {
  import opened Basics
  import opened Tables
  import opened Store
  import opened Credentials
  import opened Passwords
  import opened Text

  datatype Signup = Signup(name: string, email: string, passwd: string)

  // newUser

  function WithUser(db: Db, id: Uuid, req: Signup, secret: Secret, now: int): Db {
    InsertSecret(InsertUser(db, id, req.name, req.email, now), id, secret)
  }

  /** The refusals `newUser` decides on its own, in its order. */
  function Refusal(db: Db, cfg: Config, validEmail: bool, req: Signup): Option<Code> {
    if !validEmail then Some(InvalidArgument)
    else if EmailTaken(db, req.email) then Some(AlreadyExists)
    else if !Acceptable(cfg, req.passwd) then Some(InvalidArgument)
    else None
  }

  /** `validEmail` is the verdict of `mail.ParseAddress`; `id` and `salt` are the random values drawn. */
  method NewUser(store: Database, c: Crypto, cfg: Config, validEmail: bool, req: Signup,
                 id: Uuid, salt: Option<string>, now: int)
    returns (r: Result<User, Code>)
    requires Integrity(store.Contents())
    modifies store
    ensures r.Ok? ==>
      && Refusal(old(store.Contents()), cfg, validEmail, req) == None && id !in old(store.users) && salt.Some?
      && r.value == User(req.name, req.email, now, now)
      && store.Contents() == WithUser(old(store.Contents()), id, req,
                                      Hashed(c, req.passwd, salt.value, Threads(cfg)), now)
      && store.users == old(store.users)[id := User(req.name, req.email, now, now)]
    ensures r.Err? ==> store.Contents() == old(store.Contents())
    ensures !validEmail ==> r == Err(InvalidArgument)
    ensures EmailTaken(old(store.Contents()), req.email) || !Acceptable(cfg, req.passwd) ==> r.Err?
    ensures validEmail && EmailTaken(old(store.Contents()), req.email) ==> r == Err(AlreadyExists) || r == Err(Internal)
    ensures r == Err(AlreadyExists) ==> validEmail && EmailTaken(old(store.Contents()), req.email)
    ensures r == Err(InvalidArgument) ==> !validEmail || !Acceptable(cfg, req.passwd)
    ensures r.Err? ==> r.error == Internal || Some(r.error) == Refusal(old(store.Contents()), cfg, validEmail, req)
    ensures old(store.faults) == [] ==>
      && store.faults == []
      && var refused := Refusal(old(store.Contents()), cfg, validEmail, req);
        if refused.Some? then r == Err(refused.value)
        else if salt.None? || id in old(store.users) then r == Err(Internal)
        else r.Ok?
  {
    if !validEmail { return Err(InvalidArgument); }
    var emailExists := store.UserWithEmailExists(req.email);
    if emailExists.Err? { return Err(Internal); }
    if emailExists.value { return Err(AlreadyExists); }
    var accepted := ValidatePasswd(cfg, req.passwd);
    if accepted.Err? { return Err(accepted.error); }
    var secret := GenerateHashWithThreads(c, req.passwd, Threads(cfg), salt);
    if secret.Err? { return Err(Internal); }
    var tx := store.Begin();
    if tx.Err? { return Err(Internal); }
    r := InsertAccount(store, req, id, secret.value, now);
    if r.Err? {
      store.Rollback(tx.value);
    }
  }

  method InsertAccount(store: Database, req: Signup, id: Uuid, secret: Secret, now: int) returns (r: Result<User, Code>)
    requires Integrity(store.Contents())
    modifies store
    ensures r.Ok? ==>
      && id !in old(store.users)
      && r.value == User(req.name, req.email, now, now)
      && store.Contents() == WithUser(old(store.Contents()), id, req, secret, now)
    ensures r.Err? ==> r.error == Internal
    ensures old(store.faults) == [] ==>
      store.faults == [] && (r.Ok? <==> id !in old(store.users) && !EmailTaken(old(store.Contents()), req.email))
  {
    var user := store.NewUser(id, req.name, req.email, now);
    if user.Err? { return Err(Internal); }
    var stored := store.NewUserSecret(id, secret);
    if stored.Err? { return Err(Internal); }
    var done := store.Commit();
    if done.Err? { return Err(Internal); }
    return Ok(user.value);
  }

  // updateUser

  predicate EmailTakenByOther(db: Db, id: Uuid, email: string) {
    exists v :: v in db.users && v != id && db.users[v].email == email
  }

  function Renamed(db: Db, id: Uuid, name: string, email: string, now: int): Db
    requires id in db.users
  {
    db.(users := db.users[id := User(name, email, db.users[id].created, now)])
  }

  method UpdateUser(store: Database, validEmail: bool, id: Uuid, name: string, email: string, now: int)
    returns (r: Result<int, Code>)
    modifies store
    ensures r.Ok? ==>
      && validEmail && id in old(store.users) && !EmailTakenByOther(old(store.Contents()), id, email)
      && store.Contents() == Renamed(old(store.Contents()), id, name, email, now) && r.value == now
      && store.Contents() == old(store.Contents()).(users := store.users) && store.users.Keys == old(store.users.Keys)
      && store.users[id] == User(name, email, old(store.users)[id].created, now)
      && forall u :: u in store.users && u != id ==> store.users[u] == old(store.users)[u]
    ensures r.Err? ==> store.Contents() == old(store.Contents())
    ensures !validEmail ==> r == Err(InvalidArgument)
    ensures r.Err? && validEmail ==>
      || r.error == Internal
      || (r.error == NotFound && id !in old(store.users))
      || (r.error == AlreadyExists && id in old(store.users) && EmailTakenByOther(old(store.Contents()), id, email))
    ensures old(store.faults) == [] ==>
      && store.faults == []
      && if !validEmail then r == Err(InvalidArgument)
         else if id !in old(store.users) then r == Err(NotFound)
         else if EmailTakenByOther(old(store.Contents()), id, email) then r == Err(AlreadyExists)
         else r.Ok?
  {
    if !validEmail { return Err(InvalidArgument); }
    var updated := store.UpdateUser(id, name, email, now);
    if updated.Err? {
      return Err(match updated.error case NoRows => NotFound case Constraint => AlreadyExists case _ => Internal);
    }
    return Ok(updated.value);
  }

  // updateUserCredentials

  function Rekeyed(db: Db, id: Uuid, secret: Secret, now: int): Db {
    StampUsers(SetSecret(db, id, secret), now)
  }

  method UpdateUserCredentials(store: Database, c: Crypto, cfg: Config, id: Uuid, passwd: string,
                               salt: Option<string>, now: int)
    returns (r: Result<int, Code>)
    modifies store
    ensures r.Ok? ==>
      && Acceptable(cfg, passwd) && salt.Some? && old(store.users) != map[] && r.value == now
      && store.Contents() == Rekeyed(old(store.Contents()), id, Hashed(c, passwd, salt.value, Threads(cfg)), now)
    ensures r.Err? ==> store.Contents() == old(store.Contents())
    ensures r.Err? ==> r.error == if Acceptable(cfg, passwd) then Internal else InvalidArgument
    ensures old(store.faults) == [] ==>
      && store.faults == []
      && if !Acceptable(cfg, passwd) then r == Err(InvalidArgument)
         else if salt.None? || old(store.users) == map[] then r == Err(Internal)
         else r.Ok?
  {
    var accepted := ValidatePasswd(cfg, passwd);
    if accepted.Err? { return Err(accepted.error); }
    var secret := GenerateHashWithThreads(c, passwd, Threads(cfg), salt);
    if secret.Err? { return Err(Internal); }
    var tx := store.Begin();
    if tx.Err? { return Err(Internal); }
    r := StoreSecret(store, id, secret.value, now);
    if r.Err? {
      store.Rollback(tx.value);
    }
  }

  method StoreSecret(store: Database, id: Uuid, secret: Secret, now: int) returns (r: Result<int, Code>)
    modifies store
    ensures r.Ok? ==>
      old(store.users) != map[] && r.value == now && store.Contents() == Rekeyed(old(store.Contents()), id, secret, now)
    ensures r.Err? ==> r.error == Internal
    ensures old(store.faults) == [] ==> store.faults == [] && (r.Ok? <==> old(store.users) != map[])
  {
    var set_ := store.UpdateUserSecret(id, secret);
    if set_.Err? { return Err(Internal); }
    var modified := store.UpdateUserModified(now);
    if modified.Err? { return Err(Internal); }
    var done := store.Commit();
    if done.Err? { return Err(Internal); }
    return Ok(modified.value);
  }

  /** What a password change should do: the user's own secret and stamp, nothing else. */
  function RekeyedOnly(db: Db, id: Uuid, secret: Secret, now: int): Db {
    if id in db.users && id in db.secrets
    then db.(secrets := db.secrets[id := secret], users := db.users[id := db.users[id].(updated := now)])
    else db
  }

  lemma RekeyedTables(db: Db, id: Uuid, secret: Secret, now: int)
    requires db.secrets.Keys == db.users.Keys
    ensures var got, want := Rekeyed(db, id, secret, now), RekeyedOnly(db, id, secret, now);
      got == want.(users := got.users) && got.users.Keys == db.users.Keys == want.users.Keys
  {
  }

  lemma RekeyedRow(db: Db, id: Uuid, secret: Secret, now: int, v: Uuid)
    requires db.secrets.Keys == db.users.Keys && v in db.users
    ensures var got, want := Rekeyed(db, id, secret, now), RekeyedOnly(db, id, secret, now);
      && v in got.users && got.users[v] == db.users[v].(updated := now)
      && v in want.users && want.users[v] == if v == id then db.users[v].(updated := now) else db.users[v]
  {
  }

  /** Every account is stamped, so the intended effect holds exactly when no other account could
      tell the difference. */
  lemma RekeyIntended(db: Db, id: Uuid, secret: Secret, now: int)
    requires db.secrets.Keys == db.users.Keys
    ensures Rekeyed(db, id, secret, now) == RekeyedOnly(db, id, secret, now)
            <==> forall v :: v in db.users && v != id ==> db.users[v].updated == now
  {
    var got, want := Rekeyed(db, id, secret, now), RekeyedOnly(db, id, secret, now);
    RekeyedTables(db, id, secret, now);
    forall v | v in db.users
      ensures got.users[v] == want.users[v] <==> v == id || db.users[v].updated == now
    {
      RekeyedRow(db, id, secret, now, v);
    }
    if v :| v in db.users && v != id && db.users[v].updated != now {
      assert got.users[v] != want.users[v];
    } else {
      assert got.users == want.users;
    }
  }

  // DeleteUser

  method DeleteUser(store: Database, ctx: Option<Creds>) returns (r: Result<(), Code>)
    modifies store
    ensures r.Ok? ==>
      ctx.Some? && ctx.value.typ == Access && store.Contents() == RemoveUser(old(store.Contents()), ctx.value.subject)
    ensures r.Err? ==> store.Contents() == old(store.Contents())
    ensures r.Err? ==> r == if GetCreds(ctx, Access).Err? then Err(GetCreds(ctx, Access).error) else Err(Internal)
    ensures old(store.faults) == [] ==>
      store.faults == [] && (r.Ok? <==> GetCreds(ctx, Access).Ok?)
      && (r.Err? ==> r.error == GetCreds(ctx, Access).error)
  {
    var creds := GetCreds(ctx, Access);
    if creds.Err? { return Err(creds.error); }
    var gone := store.DeleteUser(creds.value.subject);
    if gone.Err? { return Err(Internal); }
    return Ok(());
  }

  /** The administrator's variant names its victim; only the token's own roles authorise it. */
  method AdminDeleteUser(store: Database, ctx: Option<Creds>, text: IdText) returns (r: Result<(), Code>)
    modifies store
    ensures r.Ok? ==>
      && ctx.Some? && ctx.value.typ == Access && ADMIN in ctx.value.roles && text.Spelled?
      && store.Contents() == RemoveUser(old(store.Contents()), text.id)
    ensures r.Err? ==> store.Contents() == old(store.Contents())
    ensures GetCreds(ctx, Access).Err? ==> r == Err(GetCreds(ctx, Access).error)
    ensures GetCreds(ctx, Access).Ok? ==>
      if ADMIN !in ctx.value.roles then r == Err(PermissionDenied)
      else if text.Malformed? then r == Err(InvalidArgument)
      else r.Ok? || r == Err(Internal)
    ensures old(store.faults) == [] ==> store.faults == [] && r != Err(Internal)
  {
    var creds := GetCreds(ctx, Access);
    if creds.Err? { return Err(creds.error); }
    var allowed := HasAdminRights(creds.value);
    if allowed.Err? { return Err(allowed.error); }
    if text.Malformed? { return Err(InvalidArgument); }
    var gone := store.DeleteUser(text.id);
    if gone.Err? { return Err(Internal); }
    return Ok(());
  }

  /** The rows that go with a user: secret, roles, tasks, and the links of those tasks. */
  function WithoutUser(db: Db, id: Uuid): Db {
    db.(
      users := db.users - {id},
      secrets := db.secrets - {id},
      tasks := (map t | t in db.tasks && db.tasks[t].owner != id :: db.tasks[t]),
      grants := (set a | a in db.grants && a.0 != id),
      links := (set l | l in db.links && l.0 in db.tasks && db.tasks[l.0].owner != id))
  }

  lemma CascadeMeans(db: Db, id: Uuid)
    requires db.secrets.Keys <= db.users.Keys
    requires forall t :: t in db.tasks ==> db.tasks[t].owner in db.users
    requires forall a :: a in db.grants ==> a.0 in db.users
    ensures RemoveUser(db, id) == WithoutUser(db, id)
  {
    var gone, want := RemoveUser(db, id), WithoutUser(db, id);
    assert gone.secrets == want.secrets;
    assert gone.tasks == want.tasks;
    assert gone.grants == want.grants;
    assert gone.links == want.links;
  }

  /** The cascades of schema.sql delete exactly those rows, and leave every constraint standing. */
  lemma RemoveUserExactly(db: Db, id: Uuid)
    requires Integrity(db)
    ensures RemoveUser(db, id) == WithoutUser(db, id)
    ensures Integrity(RemoveUser(db, id))
  {
    CascadeMeans(db, id);
    WithoutUserIntegrity(db, id);
  }

  lemma WithoutUserIntegrity(db: Db, id: Uuid)
    requires Integrity(db)
    ensures Integrity(WithoutUser(db, id))
  {
  }

  // Basic authentication

  /** User `u` answers to the decoded text under this thread count. */
  ghost predicate Answers(db: Db, c: Crypto, threads: nat, decoded: string, u: Uuid) {
    && ParseBasic(decoded).Some?
    && var (email, passwd) := ParseBasic(decoded).value;
      && u in db.users && db.users[u].email == email && u in db.secrets
      && ValidateCreds(c, passwd, db.secrets[u], threads).Ok?
  }

  /** User `u` answers to the credentials in this header. */
  ghost predicate Authenticates(db: Db, c: Crypto, cfg: Config, header: string, u: Uuid) {
    var decoded := c.decode(TrimPrefix(header, "Basic "));
    decoded.Some? && Answers(db, c, Threads(cfg), decoded.value, u)
  }

  /** The code for credentials that do not authenticate: an unknown email is told apart. */
  function RefusedWith(db: Db, decoded: Option<string>): Code {
    if decoded.None? || ParseBasic(decoded.value).None? then Unauthenticated
    else if !EmailTaken(db, ParseBasic(decoded.value).value.0) then NotFound
    else Unauthenticated
  }

  /** That code, from what can be seen: NotFound is for text that has a colon and in front of the first
      one no user's email; anything else that is refused is Unauthenticated. */
  lemma RefusalTold(db: Db, decoded: Option<string>)
    ensures RefusedWith(db, decoded) == NotFound || RefusedWith(db, decoded) == Unauthenticated
    ensures RefusedWith(db, decoded) == NotFound <==>
      && decoded.Some? && ':' in TrimSpace(decoded.value)
      && forall u :: u in db.users ==>
           ':' in db.users[u].email || !(db.users[u].email + ":" <= TrimSpace(decoded.value))
  {
    if decoded.Some? && ':' in TrimSpace(decoded.value) {
      var text := TrimSpace(decoded.value);
      SplitColonJoins(text);
      var (first, rest) := SplitColon(text).value;
      forall u | u in db.users && ':' !in db.users[u].email
        ensures db.users[u].email == first <==> db.users[u].email + ":" <= text
      {
        FirstPart(text, first, rest, db.users[u].email);
      }
    } else if decoded.Some? {
      SplitColonJoins(TrimSpace(decoded.value));
    }
  }

  lemma FirstPart(text: string, first: string, rest: string, email: string)
    requires text == first + ":" + rest && ':' !in first && ':' !in email
    ensures email == first <==> email + ":" <= text
  {
    if email + ":" <= text {
      assert text == email + ":" + text[|email| + 1..];
      SplitColonOf(email, text[|email| + 1..]);
      SplitColonOf(first, rest);
    }
  }

  method HandleBasicAuth(store: Database, c: Crypto, cfg: Config, header: string) returns (r: Result<Creds, Code>)
    requires Integrity(store.Contents())
    modifies store`faults
    ensures r.Ok? ==>
      && Authenticates(store.Contents(), c, cfg, header, r.value.subject) && r.value.typ == Basic
      && forall role :: role in r.value.roles <==> (r.value.subject, role) in store.grants
    ensures r.Err? ==>
      r.error == Internal || r.error == RefusedWith(store.Contents(), c.decode(TrimPrefix(header, "Basic ")))
    ensures old(store.faults) == [] ==>
      && store.faults == []
      && (r.Ok? <==> exists u :: Authenticates(store.Contents(), c, cfg, header, u))
      && (r.Err? ==> r.error == RefusedWith(store.Contents(), c.decode(TrimPrefix(header, "Basic "))))
  {
    var decoded := c.decode(TrimPrefix(header, "Basic "));
    if decoded.None? { return Err(Unauthenticated); }
    var parts := SplitColon(TrimSpace(decoded.value));
    if parts.None? { return Err(Unauthenticated); }
    var (email, passwd) := parts.value;
    var found := store.GetUserSecretsFromEmail(email);
    if found.Err? { return Err(if found.error == NoRows then NotFound else Internal); }
    var (u, secret) := found.value;
    var valid := ValidateCreds(c, passwd, secret, Threads(cfg));
    if valid.Err? { return Err(Unauthenticated); }
    var roles := store.GetUserRoles(u);
    if roles.Err? { return Err(Internal); }
    assert Answers(store.Contents(), c, Threads(cfg), decoded.value, u);
    return Ok(Creds(u, 0, roles.value, Basic, 0));
  }

  /** The header a client builds from an email and a password (section 2 of RFC 7617). */
  function BasicHeader(c: Crypto, email: string, passwd: string): string {
    "Basic " + c.encode(email + ":" + passwd)
  }

  lemma HeaderDecodes(c: Crypto, email: string, passwd: string)
    requires Lawful(c)
    ensures c.decode(TrimPrefix(BasicHeader(c, email, passwd), "Basic ")) == Some(email + ":" + passwd)
  {
    var encoded := c.encode(email + ":" + passwd);
    assert ("Basic " + encoded)[|"Basic "|..] == encoded;
  }

  /** The scheme is not required: a header without the prefix is decoded as it is. */
  lemma SchemeOptional(db: Db, c: Crypto, cfg: Config, header: string, u: Uuid)
    requires !("Basic " <= header)
    ensures Authenticates(db, c, cfg, header, u) <==> Authenticates(db, c, cfg, "Basic " + header, u)
  {
    assert ("Basic " + header)[|"Basic "|..] == header;
  }

  /** Can the parser hand back this email? */
  predicate Reachable(email: string) {
    ':' !in email && (email == "" || !IsSpace(email[0]))
  }

  /** Exactly when a user's own email and password are accepted: the email must come through the parser,
      and trailing white space of the password, which is cut off, must not matter to the hash. `stored`
      is the thread count of the hash on file. */
  lemma OwnPairAnswers(db: Db, c: Crypto, threads: nat, stored: nat, u: Uuid, passwd: string, salt: string)
    requires Lawful(c) && u in db.users && u in db.secrets && db.secrets[u] == Hashed(c, passwd, salt, stored)
    ensures Answers(db, c, threads, db.users[u].email + ":" + passwd, u)
            <==> Reachable(db.users[u].email)
                 && c.argon(TrimRight(passwd), salt, threads) == c.argon(passwd, salt, stored)
  {
    var email := db.users[u].email;
    ParseOf(email, passwd);
    TrimLeftShorter(email);
    ValidatesAcrossThreads(c, passwd, TrimRight(passwd), salt, stored, threads);
  }

  /** The same for an account that was just added with a new email: it answers, or nobody does. */
  lemma NewcomerAnswers(db: Db, after: Db, c: Crypto, cfg: Config, stored: nat, id: Uuid, user: User,
                        passwd: string, salt: string, u: Uuid)
    requires Lawful(c) && Reachable(user.email) && !EmailTaken(db, user.email)
    requires after.users == db.users[id := user]
    requires after.secrets == db.secrets[id := Hashed(c, passwd, salt, stored)]
    ensures Authenticates(after, c, cfg, BasicHeader(c, user.email, passwd), u)
            <==> u == id && c.argon(TrimRight(passwd), salt, Threads(cfg)) == c.argon(passwd, salt, stored)
  {
    HeaderDecodes(c, user.email, passwd);
    OwnPairAnswers(after, c, Threads(cfg), stored, id, passwd, salt);
    ParseOf(user.email, passwd);
    TrimLeftShorter(user.email);
  }

  /** After `newUser` the header of the same email and password authenticates the new user exactly when
      the email has no colon and no leading white space, and the password hashes alike with and without
      trailing blanks. For everybody else the header means what it meant before. */
  lemma SignupRoundTrip(db: Db, c: Crypto, cfg: Config, id: Uuid, req: Signup, salt: string, now: int)
    requires Lawful(c) && id !in db.users && Refusal(db, cfg, true, req) == None
    ensures var after := WithUser(db, id, req, Hashed(c, req.passwd, salt, Threads(cfg)), now);
      var header := BasicHeader(c, req.email, req.passwd);
      && (Authenticates(after, c, cfg, header, id)
          <==> Reachable(req.email)
               && c.argon(TrimRight(req.passwd), salt, Threads(cfg)) == c.argon(req.passwd, salt, Threads(cfg)))
      && forall u :: u != id ==> (Authenticates(after, c, cfg, header, u) <==> Authenticates(db, c, cfg, header, u))
  {
    var after := WithUser(db, id, req, Hashed(c, req.passwd, salt, Threads(cfg)), now);
    HeaderDecodes(c, req.email, req.passwd);
    OwnPairAnswers(after, c, Threads(cfg), Threads(cfg), id, req.passwd, salt);
  }

  /** The part of it a client can rely on: such an email, a password without a trailing blank, and then
      it is the new user and nobody else. */
  lemma CredentialRoundTrip(db: Db, c: Crypto, cfg: Config, id: Uuid, req: Signup, salt: string, now: int)
    requires Integrity(db) && Lawful(c) && id !in db.users && Refusal(db, cfg, true, req) == None
    requires Reachable(req.email) && (req.passwd == "" || req.passwd[|req.passwd| - 1] != ' ')
    ensures var after := WithUser(db, id, req, Hashed(c, req.passwd, salt, Threads(cfg)), now);
      forall u :: Authenticates(after, c, cfg, BasicHeader(c, req.email, req.passwd), u) <==> u == id
  {
    HeaderDecodes(c, req.email, req.passwd);
    ParseRecoversAccepted(cfg, req.email, req.passwd);
    ValidatesAcrossThreads(c, req.passwd, req.passwd, salt, Threads(cfg), Threads(cfg));
  }

  /** Outside that condition the server looks up some other pair: never the account's own email with
      its own password. */
  lemma CredentialLookupMisses(cfg: Config, email: string, passwd: string)
    requires Acceptable(cfg, passwd)
    requires !Reachable(email) || (passwd != "" && passwd[|passwd| - 1] == ' ')
    ensures ParseBasic(email + ":" + passwd) != Some((email, passwd))
  {
    ParseRecoversAccepted(cfg, email, passwd);
  }

  /** The other pair can be somebody's: the header of the account "x:y" with password "z" authenticates
      the user "x" whose password is "y:z", and not the account. */
  lemma ColonNamesAnother(db: Db, c: Crypto, cfg: Config, other: Uuid, id: Uuid, rest: string, passwd: string,
                          salt: string)
    requires Lawful(c) && other in db.users && other in db.secrets && id in db.users
    requires Reachable(db.users[other].email) && db.users[id].email == db.users[other].email + ":" + rest
    requires db.secrets[other] == Hashed(c, rest + ":" + passwd, salt, Threads(cfg))
    requires passwd == "" || !IsSpace(passwd[|passwd| - 1])
    ensures var header := BasicHeader(c, db.users[id].email, passwd);
      Authenticates(db, c, cfg, header, other) && !Authenticates(db, c, cfg, header, id)
  {
    var first, theirs := db.users[other].email, rest + ":" + passwd;
    HeaderDecodes(c, db.users[id].email, passwd);
    assert db.users[id].email + ":" + passwd == first + ":" + theirs;
    OwnPairAnswers(db, c, Threads(cfg), Threads(cfg), other, theirs, salt);
    assert TrimRight(theirs) == theirs;
    ParseOf(db.users[id].email, passwd);
  }

  /** A changed password is the one that authenticates from then on, under the same condition. */
  lemma RekeyRoundTrip(db: Db, c: Crypto, cfg: Config, id: Uuid, passwd: string, salt: string, now: int)
    requires Integrity(db) && Lawful(c) && id in db.users
    ensures var after := Rekeyed(db, id, Hashed(c, passwd, salt, Threads(cfg)), now);
      var header := BasicHeader(c, db.users[id].email, passwd);
      && (Authenticates(after, c, cfg, header, id)
          <==> Reachable(db.users[id].email)
               && c.argon(TrimRight(passwd), salt, Threads(cfg)) == c.argon(passwd, salt, Threads(cfg)))
      && forall u :: u != id ==> (Authenticates(after, c, cfg, header, u) <==> Authenticates(db, c, cfg, header, u))
  {
    var after := Rekeyed(db, id, Hashed(c, passwd, salt, Threads(cfg)), now);
    HeaderDecodes(c, db.users[id].email, passwd);
    OwnPairAnswers(after, c, Threads(cfg), Threads(cfg), id, passwd, salt);
  }
}
