/** `validateAdmin`: every start makes sure that some user holds the ADMIN role. */
module Bootstrap {
  import opened Basics
  import opened Tables
  import opened Store
  import opened Credentials
  import opened Passwords
  import opened Text
  import Accounts

  const ADMIN_NAME := "Default Admin"
  const ADMIN_EMAIL := "admin@localhost"

  /** The random values a new default admin needs: row id, password characters, salt. */
  datatype Dice = Dice(id: Uuid, draws: seq<Option<nat>>, salt: Option<string>)

  ghost predicate Fair(dice: Dice) {
    |dice.draws| == GEN_PASSWORD_LENGTH && forall d :: d in dice.draws ==> d.Some? ==> d.value < 95
  }

  /** A secret made from the drawn characters and the drawn salt, hashed with one thread per CPU. */
  ghost predicate MadeFrom(c: Crypto, cfg: Config, dice: Dice, secret: Secret) {
    && dice.salt.Some?
    && exists passwd ::
         SpelledBy(passwd, dice.draws) && secret == Hashed(c, passwd, dice.salt.value, cfg.numCpu % 256)
  }

  function Request(passwd: string): Accounts.Signup {
    Accounts.Signup(ADMIN_NAME, ADMIN_EMAIL, passwd)
  }

  /** `db` after a successful start, if a new admin is given `secret`. */
  function AdminEnsured(db: Db, id: Uuid, secret: Secret, now: int): Db {
    var known := db.(roles := db.roles + {ADMIN});
    if HasRole(known, ADMIN) then known
    else if EmailTaken(known, ADMIN_EMAIL) then GrantByEmail(known, ADMIN_EMAIL, ADMIN)
    else GrantByEmail(Accounts.WithUser(known, id, Request(""), secret, now), ADMIN_EMAIL, ADMIN)
  }

  /** Must a new user be made? */
  predicate NeedsUser(db: Db) {
    !HasRole(db, ADMIN) && !EmailTaken(db, ADMIN_EMAIL)
  }

  /** Can it be made with these values? */
  predicate Drawable(db: Db, dice: Dice) {
    dice.id !in db.users && dice.id !in db.secrets && dice.salt.Some? && None !in dice.draws
  }

  /** The branch taken when no admin was found. */
  method Promote(store: Database, c: Crypto, cfg: Config, dice: Dice, now: int) returns (r: Result<string, DbError>)
    requires Fair(dice) && ADMIN in store.roles
    modifies store
    ensures r.Ok? && EmailTaken(old(store.Contents()), ADMIN_EMAIL) ==>
      store.Contents() == GrantByEmail(old(store.Contents()), ADMIN_EMAIL, ADMIN)
    ensures r.Ok? && !EmailTaken(old(store.Contents()), ADMIN_EMAIL) ==>
      && dice.id !in old(store.users) && dice.salt.Some?
      && SpelledBy(r.value, dice.draws)
      && store.Contents() == GrantByEmail(
           Accounts.WithUser(old(store.Contents()), dice.id, Request(""),
                             Hashed(c, r.value, dice.salt.value, cfg.numCpu % 256), now),
           ADMIN_EMAIL, ADMIN)
    ensures old(store.faults) == [] ==>
      && store.faults == []
      && (r.Ok? <==> EmailTaken(old(store.Contents()), ADMIN_EMAIL) || Drawable(old(store.Contents()), dice))
  {
    var passwd := "";
    var exists_ := store.UserWithEmailExists(ADMIN_EMAIL);
    if exists_.Err? { return Err(exists_.error); }
    if !exists_.value {
      var user := store.NewUser(dice.id, ADMIN_NAME, ADMIN_EMAIL, now);
      if user.Err? { return Err(user.error); }
      var generated := GenPassword(c, cfg, dice.draws, dice.salt);
      if generated.Err? { return Err(Fault); }
      passwd := generated.value.0;
      var stored := store.NewUserSecret(dice.id, generated.value.1);
      if stored.Err? { return Err(stored.error); }
    }
    var granted := store.AppendUserRoleFromEmail(ADMIN_EMAIL, ADMIN);
    if granted.Err? { return Err(granted.error); }
    return Ok(passwd);
  }

  /** When `AdminExists` itself fails, the promotion still runs and is then rolled back. */
  method ValidateAdmin(store: Database, c: Crypto, cfg: Config, dice: Dice, now: int)
    returns (r: Result<string, DbError>)
    requires Fair(dice)
    modifies store
    ensures r.Err? ==> store.Contents() == old(store.Contents())
    ensures r.Ok? && NeedsUser(old(store.Contents())) ==>
      dice.id !in old(store.users) && dice.salt.Some? && SpelledBy(r.value, dice.draws)
    ensures r.Ok? ==>
      var secret := if dice.salt.Some? then Hashed(c, r.value, dice.salt.value, cfg.numCpu % 256) else Secret("", "");
      store.Contents() == AdminEnsured(old(store.Contents()), dice.id, secret, now)
    ensures r.Ok? && NeedsUser(old(store.Contents())) ==>
      && store.users == old(store.users)[dice.id := User("Default Admin", "admin@localhost", now, now)]
      && (dice.id, "ADMIN") in store.grants
    ensures r.Ok? && !NeedsUser(old(store.Contents())) ==>
      && store.users == old(store.users) && store.secrets == old(store.secrets)
      && forall u :: (u, "ADMIN") in store.grants <==>
           || (u, "ADMIN") in old(store.grants)
           || (u in store.users && store.users[u].email == "admin@localhost"
               && !HasRole(old(store.Contents()), "ADMIN"))
    // With detected threads, the password that is logged logs in, unless it happens to end in a blank.
    ensures r.Ok? && NeedsUser(old(store.Contents())) && Integrity(old(store.Contents())) && Lawful(c) ==>
      cfg.argonThreads == 0 && dice.draws[GEN_PASSWORD_LENGTH - 1] != Some(0) ==>
        Accounts.Authenticates(store.Contents(), c, cfg, Accounts.BasicHeader(c, ADMIN_EMAIL, r.value), dice.id)
    ensures old(store.faults) == [] ==>
      && store.faults == []
      && (r.Ok? <==> !NeedsUser(old(store.Contents())) || Drawable(old(store.Contents()), dice))
  {
    ghost var before := store.Contents();
    var tx := store.Begin();
    if tx.Err? { return Err(tx.error); }
    r := InTransaction(store, c, cfg, dice, now);
    if r.Ok? {
      var done := store.Commit();
      if done.Err? { r := Err(done.error); }
    }
    if r.Err? { store.Rollback(tx.value); }
    if r.Ok? && NeedsUser(before) {
      NewAdminRows(before, dice.id, Hashed(c, r.value, dice.salt.value, cfg.numCpu % 256), now);
      if Integrity(before) && Lawful(c) && cfg.argonThreads == 0 {
        DrawnEnd(r.value, dice.draws);
        AutomaticLogin(before, c, cfg, dice.id, r.value, dice.salt.value, now);
      }
    }
  }

  lemma DrawnEnd(passwd: string, draws: seq<Option<nat>>)
    requires SpelledBy(passwd, draws) && |draws| == GEN_PASSWORD_LENGTH
    requires forall d :: d in draws ==> d.Some? ==> d.value < 95
    ensures IsSpace(passwd[|passwd| - 1]) <==> draws[GEN_PASSWORD_LENGTH - 1] == Some(0)
  {
    assert draws[GEN_PASSWORD_LENGTH - 1] in draws;
  }

  method InTransaction(store: Database, c: Crypto, cfg: Config, dice: Dice, now: int)
    returns (r: Result<string, DbError>)
    requires Fair(dice)
    modifies store
    ensures r.Ok? && NeedsUser(old(store.Contents())) ==>
      dice.id !in old(store.users) && dice.salt.Some? && SpelledBy(r.value, dice.draws)
    ensures r.Ok? ==>
      var secret := if dice.salt.Some? then Hashed(c, r.value, dice.salt.value, cfg.numCpu % 256) else Secret("", "");
      store.Contents() == AdminEnsured(old(store.Contents()), dice.id, secret, now)
    ensures old(store.faults) == [] ==>
      && store.faults == []
      && (r.Ok? <==> !NeedsUser(old(store.Contents())) || Drawable(old(store.Contents()), dice))
  {
    var role := store.NewAdminRole(ADMIN);
    if role.Err? { return Err(role.error); }
    var found := store.AdminExists(ADMIN);
    var passwd := "";
    if found.Err? || !found.value {
      var promoted := Promote(store, c, cfg, dice, now);
      if promoted.Err? { return promoted; }
      passwd := promoted.value;
    }
    if found.Err? { return Err(found.error); }
    return Ok(passwd);
  }

  // What it achieves

  ghost predicate SomeAdmin(db: Db) {
    exists u :: u in db.users && (u, ADMIN) in db.grants
  }

  /** Nothing of `before` is lost or changed, at most user `id` was added, and the only new grants make
      the owner of the default address an admin. */
  ghost predicate OneMoreAtMost(before: Db, after: Db, id: Uuid) {
    && (forall u :: u in before.users ==> u in after.users && after.users[u] == before.users[u])
    && (forall u :: u in before.secrets ==> u in after.secrets && after.secrets[u] == before.secrets[u])
    && after.users.Keys <= before.users.Keys + {id}
    && before.grants <= after.grants
    && (forall a :: a in after.grants - before.grants ==>
          a.1 == ADMIN && a.0 in after.users && after.users[a.0].email == ADMIN_EMAIL)
    && after == before.(users := after.users, secrets := after.secrets, roles := after.roles, grants := after.grants)
  }

  lemma GrantGives(db: Db, id: Uuid)
    requires Integrity(db) && ADMIN in db.roles && EmailTaken(db, ADMIN_EMAIL)
    ensures var after := GrantByEmail(db, ADMIN_EMAIL, ADMIN);
      Integrity(after) && SomeAdmin(after) && OneMoreAtMost(db, after, id)
  {
    var u :| u in db.users && db.users[u].email == ADMIN_EMAIL;
    assert (u, ADMIN) in GrantByEmail(db, ADMIN_EMAIL, ADMIN).grants;
  }

  lemma NewAccountKeeps(db: Db, id: Uuid, req: Accounts.Signup, secret: Secret, now: int)
    requires Integrity(db) && id !in db.users && !EmailTaken(db, req.email)
    ensures var after := Accounts.WithUser(db, id, req, secret, now);
      Integrity(after) && EmailTaken(after, req.email) && OneMoreAtMost(db, after, id)
  {
    var after := Accounts.WithUser(db, id, req, secret, now);
    assert id in after.users && after.users[id].email == req.email;
  }

  lemma OneMoreThen(a: Db, b: Db, c: Db, id: Uuid)
    requires OneMoreAtMost(a, b, id) && OneMoreAtMost(b, c, id)
    ensures OneMoreAtMost(a, c, id)
  {
  }

  lemma RoleKnown(db: Db, id: Uuid)
    requires Integrity(db)
    ensures var known := db.(roles := db.roles + {ADMIN});
      Integrity(known) && OneMoreAtMost(db, known, id) && (HasRole(db, ADMIN) ==> SomeAdmin(known))
  {
    if a :| a in db.grants && a.1 == ADMIN {
      assert (a.0, ADMIN) in db.grants;
    }
  }

  /** Some existing user holds ADMIN, every constraint still stands, and at most one user was added,
      with a secret; nobody but the owner of the default address is promoted, and nobody at all when
      there was an admin; the other users, and all tasks, tags and revocations, are as they were. */
  lemma AdminGuaranteed(db: Db, id: Uuid, secret: Secret, now: int)
    requires Integrity(db) && (NeedsUser(db) ==> id !in db.users)
    ensures var after := AdminEnsured(db, id, secret, now);
      && Integrity(after) && SomeAdmin(after) && OneMoreAtMost(db, after, id)
      && (HasRole(db, ADMIN) ==> after.users == db.users && after.grants == db.grants)
  {
    RoleKnown(db, id);
    var known := db.(roles := db.roles + {ADMIN});
    if !HasRole(db, ADMIN) {
      if EmailTaken(db, ADMIN_EMAIL) {
        GrantGives(known, id);
        OneMoreThen(db, known, GrantByEmail(known, ADMIN_EMAIL, ADMIN), id);
      } else {
        FirstAdmin(known, id, secret, now);
        OneMoreThen(db, known, AdminEnsured(db, id, secret, now), id);
      }
    }
  }

  lemma FirstAdmin(known: Db, id: Uuid, secret: Secret, now: int)
    requires Integrity(known) && ADMIN in known.roles && id !in known.users && !EmailTaken(known, ADMIN_EMAIL)
    ensures var after := GrantByEmail(Accounts.WithUser(known, id, Request(""), secret, now), ADMIN_EMAIL, ADMIN);
      Integrity(after) && SomeAdmin(after) && OneMoreAtMost(known, after, id)
  {
    NewAccountKeeps(known, id, Request(""), secret, now);
    var more := Accounts.WithUser(known, id, Request(""), secret, now);
    GrantGives(more, id);
    OneMoreThen(known, more, GrantByEmail(more, ADMIN_EMAIL, ADMIN), id);
  }

  /** Somebody is added or promoted exactly when there was no admin. */
  lemma AdminPresent(db: Db, id: Uuid, secret: Secret, now: int)
    requires Integrity(db) && (NeedsUser(db) ==> id !in db.users)
    ensures var after := AdminEnsured(db, id, secret, now);
      after.users == db.users && after.grants == db.grants <==> HasRole(db, ADMIN)
  {
    AdminGuaranteed(db, id, secret, now);
    var after := AdminEnsured(db, id, secret, now);
    var u :| u in after.users && (u, ADMIN) in after.grants;
    assert (u, ADMIN) in db.grants ==> HasRole(db, ADMIN);
  }

  /** A second start changes nothing, whatever it would have drawn. */
  lemma AdminIdempotent(db: Db, id: Uuid, secret: Secret, now: int, id2: Uuid, secret2: Secret, now2: int)
    requires Integrity(db) && (NeedsUser(db) ==> id !in db.users)
    ensures var after := AdminEnsured(db, id, secret, now);
      AdminEnsured(after, id2, secret2, now2) == after
  {
    AdminGuaranteed(db, id, secret, now);
    SettledAdmin(AdminEnsured(db, id, secret, now), id2, secret2, now2);
  }

  lemma SettledAdmin(db: Db, id: Uuid, secret: Secret, now: int)
    requires Integrity(db) && SomeAdmin(db)
    ensures AdminEnsured(db, id, secret, now) == db
  {
    var u :| u in db.users && (u, ADMIN) in db.grants;
    assert HasRole(db, ADMIN);
    assert db.roles + {ADMIN} == db.roles;
  }

  /** The logged password lets the new admin in exactly when Argon2 gives the same hash for the number
      of CPUs, used at creation, as for the configured thread count, used at login, trailing blanks of
      the password cut off; nobody else answers to it. When both counts resolve to the same number a
      password without a trailing blank always works. */
  lemma DefaultAdminLogin(db: Db, c: Crypto, cfg: Config, id: Uuid, passwd: string, salt: string, now: int, u: Uuid)
    requires Integrity(db) && Lawful(c) && NeedsUser(db) && id !in db.users
    ensures var stored := cfg.numCpu % 256;
      var after := AdminEnsured(db, id, Hashed(c, passwd, salt, stored), now);
      var header := Accounts.BasicHeader(c, ADMIN_EMAIL, passwd);
      && (Accounts.Authenticates(after, c, cfg, header, u)
          <==> u == id && c.argon(TrimRight(passwd), salt, Threads(cfg)) == c.argon(passwd, salt, stored))
      && (Threads(cfg) == stored && (passwd == "" || !IsSpace(passwd[|passwd| - 1])) ==>
            Accounts.Authenticates(after, c, cfg, header, id))
  {
    var stored := cfg.numCpu % 256;
    var secret := Hashed(c, passwd, salt, stored);
    NewAdminRows(db, id, secret, now);
    var user := User(ADMIN_NAME, ADMIN_EMAIL, now, now);
    AddressReachable();
    Accounts.NewcomerAnswers(db, AdminEnsured(db, id, secret, now), c, cfg, stored, id, user, passwd, salt, u);
    Accounts.NewcomerAnswers(db, AdminEnsured(db, id, secret, now), c, cfg, stored, id, user, passwd, salt, id);
  }

  /** With detected threads, the default setting, both counts are the number of CPUs: the header of the
      default admin then works for every password without a trailing blank, and for one with blanks
      exactly when Argon2 does not tell the difference. */
  lemma AutomaticLogin(db: Db, c: Crypto, cfg: Config, id: Uuid, passwd: string, salt: string, now: int)
    requires Integrity(db) && Lawful(c) && NeedsUser(db) && id !in db.users && cfg.argonThreads == 0
    ensures var n := cfg.numCpu % 256;
      var after := AdminEnsured(db, id, Hashed(c, passwd, salt, n), now);
      var header := Accounts.BasicHeader(c, ADMIN_EMAIL, passwd);
      && (Accounts.Authenticates(after, c, cfg, header, id) <==>
            c.argon(TrimRight(passwd), salt, n) == c.argon(passwd, salt, n))
      && (passwd == "" || !IsSpace(passwd[|passwd| - 1]) ==> Accounts.Authenticates(after, c, cfg, header, id))
  {
    DefaultAdminLogin(db, c, cfg, id, passwd, salt, now, id);
  }

  lemma AddressReachable()
    ensures Accounts.Reachable(ADMIN_EMAIL)
  {
  }

  lemma NewAdminRows(db: Db, id: Uuid, secret: Secret, now: int)
    requires NeedsUser(db)
    ensures var after := AdminEnsured(db, id, secret, now);
      && after.users == db.users[id := User("Default Admin", "admin@localhost", now, now)]
      && after.secrets == db.secrets[id := secret] && (id, "ADMIN") in after.grants
  {
    var users := db.users[id := User(ADMIN_NAME, ADMIN_EMAIL, now, now)];
    assert id in users && users[id].email == ADMIN_EMAIL;
  }
}
