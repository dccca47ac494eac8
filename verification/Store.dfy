/** The database connection: one mutable field per table, one method per statement used by the
    handlers. `faults` scripts which statements the database refuses (I/O, cancellation, lock
    timeout); every statement consumes one entry, and an exhausted script means no more faults. */
module Store {
  import opened Basics
  import opened Tables
  import TaskUpdate

  datatype DbError = NoRows | Constraint | Fault | Unscannable

  datatype Tag = Tag(id: TagId, name: string)

  predicate Faulty(script: seq<bool>) {
    |script| > 0 && script[0]
  }

  function Later(script: seq<bool>): seq<bool> {
    if |script| > 0 then script[1..] else []
  }

  /** The full rows of the given tag ids. */
  function Rows(tags: map<TagId, string>, ids: seq<TagId>): (rows: seq<Tag>)
    requires forall g :: g in ids ==> g in tags
    ensures |rows| == |ids|
    ensures forall tag :: tag in rows <==> tag.id in ids && tag.name == tags[tag.id]
    ensures NoRepeats(ids) ==> NoRepeats(rows)
  {
    if ids == [] then [] else
      assert ids[0] in ids;
      [Tag(ids[0], tags[ids[0]])] + Rows(tags, ids[1..])
  }

  class Database {
    var users: map<Uuid, User>
    var secrets: map<Uuid, Secret>
    var tasks: map<Uuid, Task>
    var tags: map<TagId, string>
    var tagSeq: nat
    var links: set<(Uuid, TagId)>
    var roles: set<string>
    var grants: set<(Uuid, string)>
    var revoked: map<Uuid, int>
    var faults: seq<bool>

    function Contents(): Db
      reads this
    {
      Db(users, secrets, tasks, tags, tagSeq, links, roles, grants, revoked)
    }

    constructor (db: Db, script: seq<bool>)
      ensures Contents() == db && faults == script
    {
      users, secrets, tasks, tags, tagSeq := db.users, db.secrets, db.tasks, db.tags, db.tagSeq;
      links, roles, grants, revoked := db.links, db.roles, db.grants, db.revoked;
      faults := script;
    }

    /** Does the statement about to run fail? */
    method Trips() returns (bad: bool)
      modifies this`faults
      ensures bad == Faulty(old(faults)) && faults == Later(old(faults))
    {
      bad := |faults| > 0 && faults[0];
      faults := if |faults| > 0 then faults[1..] else [];
    }

    // Transactions. A snapshot taken at Begin is put back by every exit that does not commit.

    method Begin() returns (r: Result<Db, DbError>)
      modifies this`faults
      ensures faults == Later(old(faults))
      ensures r == if Faulty(old(faults)) then Err(Fault) else Ok(Contents())
    {
      var bad := Trips();
      r := if bad then Err(Fault) else Ok(Contents());
    }

    method Commit() returns (r: Result<(), DbError>)
      modifies this`faults
      ensures faults == Later(old(faults))
      ensures r == if Faulty(old(faults)) then Err(Fault) else Ok(())
    {
      var bad := Trips();
      r := if bad then Err(Fault) else Ok(());
    }

    method Rollback(snapshot: Db)
      modifies this
      ensures Contents() == snapshot && faults == old(faults)
    {
      users, secrets, tasks := snapshot.users, snapshot.secrets, snapshot.tasks;
      tags, tagSeq, links := snapshot.tags, snapshot.tagSeq, snapshot.links;
      roles, grants, revoked := snapshot.roles, snapshot.grants, snapshot.revoked;
    }

    /** Between two statements outside a transaction, other connections commit. */
    method Meanwhile(others: Db -> Db)
      modifies this
      ensures Contents() == others(old(Contents())) && faults == old(faults)
    {
      Rollback(others(Contents()));
    }

    // users.sql

    method GetUserCount() returns (r: Result<nat, DbError>)
      modifies this`faults
      ensures faults == Later(old(faults))
      ensures r == if Faulty(old(faults)) then Err(Fault) else Ok(|Contents().users|)
    {
      var bad := Trips();
      r := if bad then Err(Fault) else Ok(|users|);
    }

    method GetUser(id: Uuid) returns (r: Result<User, DbError>)
      modifies this`faults
      ensures faults == Later(old(faults))
      ensures r == if Faulty(old(faults)) then Err(Fault)
                   else if id in Contents().users then Ok(Contents().users[id]) else Err(NoRows)
    {
      var bad := Trips();
      r := if bad then Err(Fault) else if id in users then Ok(users[id]) else Err(NoRows);
    }

    /** The user row joined with its secret; with unique emails there is at most one. */
    method GetUserSecretsFromEmail(email: string) returns (r: Result<(Uuid, Secret), DbError>)
      modifies this`faults
      ensures faults == Later(old(faults))
      ensures Faulty(old(faults)) ==> r == Err(Fault)
      ensures !Faulty(old(faults)) && r.Ok? ==>
        var (u, s) := r.value;
        u in users && users[u].email == email && u in secrets && secrets[u] == s
      ensures !Faulty(old(faults)) && r.Err? ==>
        r == Err(NoRows) && forall u :: u in users && users[u].email == email ==> u !in secrets
    {
      var bad := Trips();
      if bad { return Err(Fault); }
      if u :| u in users && users[u].email == email && u in secrets {
        return Ok((u, secrets[u]));
      }
      return Err(NoRows);
    }

    method GetUserRoles(id: Uuid) returns (r: Result<set<string>, DbError>)
      modifies this`faults
      ensures faults == Later(old(faults))
      ensures Faulty(old(faults)) ==> r == Err(Fault)
      ensures !Faulty(old(faults)) ==>
        r.Ok? && forall role :: role in r.value <==> (id, role) in grants
    {
      var bad := Trips();
      if bad { return Err(Fault); }
      return Ok(set a | a in grants && a.0 == id :: a.1);
    }

    method UserWithEmailExists(email: string) returns (r: Result<bool, DbError>)
      modifies this`faults
      ensures faults == Later(old(faults))
      ensures r == if Faulty(old(faults)) then Err(Fault) else Ok(EmailTaken(Contents(), email))
    {
      var bad := Trips();
      r := if bad then Err(Fault) else Ok(exists u :: u in users && users[u].email == email);
    }

    /** `id` is the value the row's DEFAULT generates. */
    method NewUser(id: Uuid, name: string, email: string, now: int) returns (r: Result<User, DbError>)
      modifies this`users, this`faults
      ensures faults == Later(old(faults))
      ensures Faulty(old(faults)) ==> r == Err(Fault) && Contents() == old(Contents())
      ensures !Faulty(old(faults)) ==>
        if id in old(users) || EmailTaken(old(Contents()), email)
        then r == Err(Constraint) && Contents() == old(Contents())
        else r == Ok(User(name, email, now, now)) && Contents() == InsertUser(old(Contents()), id, name, email, now)
    {
      var bad := Trips();
      if bad { return Err(Fault); }
      if id in users || (exists u :: u in users && users[u].email == email) { return Err(Constraint); }
      users := users[id := User(name, email, now, now)];
      return Ok(users[id]);
    }

    method NewUserSecret(id: Uuid, secret: Secret) returns (r: Result<(), DbError>)
      modifies this`secrets, this`faults
      ensures faults == Later(old(faults))
      ensures Faulty(old(faults)) ==> r == Err(Fault) && Contents() == old(Contents())
      ensures !Faulty(old(faults)) ==>
        if id in old(secrets) || id !in users
        then r == Err(Constraint) && Contents() == old(Contents())
        else r == Ok(()) && Contents() == InsertSecret(old(Contents()), id, secret)
    {
      var bad := Trips();
      if bad { return Err(Fault); }
      if id in secrets || id !in users { return Err(Constraint); }
      secrets := secrets[id := secret];
      return Ok(());
    }

    method UpdateUser(id: Uuid, name: string, email: string, now: int) returns (r: Result<int, DbError>)
      modifies this`users, this`faults
      ensures faults == Later(old(faults))
      ensures Faulty(old(faults)) ==> r == Err(Fault) && Contents() == old(Contents())
      ensures !Faulty(old(faults)) ==>
        if id !in old(users) then r == Err(NoRows) && Contents() == old(Contents())
        else if exists v :: v in old(users) && v != id && old(users)[v].email == email
        then r == Err(Constraint) && Contents() == old(Contents())
        else r == Ok(now) && Contents() == old(Contents()).(
          users := old(users)[id := User(name, email, old(users)[id].created, now)])
    {
      var bad := Trips();
      if bad { return Err(Fault); }
      if id !in users { return Err(NoRows); }
      if exists v :: v in users && v != id && users[v].email == email { return Err(Constraint); }
      users := users[id := User(name, email, users[id].created, now)];
      return Ok(now);
    }

    method UpdateUserSecret(id: Uuid, secret: Secret) returns (r: Result<(), DbError>)
      modifies this`secrets, this`faults
      ensures faults == Later(old(faults))
      ensures Faulty(old(faults)) ==> r == Err(Fault) && Contents() == old(Contents())
      ensures !Faulty(old(faults)) ==> r == Ok(()) && Contents() == SetSecret(old(Contents()), id, secret)
    {
      var bad := Trips();
      if bad { return Err(Fault); }
      if id in secrets { secrets := secrets[id := secret]; }
      return Ok(());
    }

    method UpdateUserModified(now: int) returns (r: Result<int, DbError>)
      modifies this`users, this`faults
      ensures faults == Later(old(faults))
      ensures Faulty(old(faults)) ==> r == Err(Fault) && Contents() == old(Contents())
      ensures !Faulty(old(faults)) ==>
        && Contents() == StampUsers(old(Contents()), now)
        && r == if old(users) == map[] then Err(NoRows) else Ok(now)
    {
      var bad := Trips();
      if bad { return Err(Fault); }
      if users == map[] {
        assert StampUsers(Contents(), now).users == users;
        return Err(NoRows);
      }
      users := map u | u in users :: users[u].(updated := now);
      return Ok(now);
    }

    method DeleteUser(id: Uuid) returns (r: Result<(), DbError>)
      modifies this
      ensures faults == Later(old(faults))
      ensures Faulty(old(faults)) ==> r == Err(Fault) && Contents() == old(Contents())
      ensures !Faulty(old(faults)) ==> r == Ok(()) && Contents() == RemoveUser(old(Contents()), id)
    {
      var bad := Trips();
      if bad { return Err(Fault); }
      var gone := RemoveUser(Contents(), id);
      users, secrets, tasks := users - {id}, gone.secrets, gone.tasks;
      grants, links := gone.grants, gone.links;
      return Ok(());
    }

    method NewAdminRole(role: string) returns (r: Result<(), DbError>)
      modifies this`roles, this`faults
      ensures faults == Later(old(faults))
      ensures Faulty(old(faults)) ==> r == Err(Fault) && Contents() == old(Contents())
      ensures !Faulty(old(faults)) ==>
        r == Ok(()) && Contents() == old(Contents()).(roles := old(roles) + {role})
    {
      var bad := Trips();
      if bad { return Err(Fault); }
      roles := roles + {role};
      return Ok(());
    }

    method AdminExists(role: string) returns (r: Result<bool, DbError>)
      modifies this`faults
      ensures faults == Later(old(faults))
      ensures r == if Faulty(old(faults)) then Err(Fault) else Ok(HasRole(Contents(), role))
    {
      var bad := Trips();
      r := if bad then Err(Fault) else Ok(exists a :: a in grants && a.1 == role);
    }

    method AppendUserRoleFromEmail(email: string, role: string) returns (r: Result<(), DbError>)
      modifies this`grants, this`faults
      ensures faults == Later(old(faults))
      ensures Faulty(old(faults)) ==> r == Err(Fault) && Contents() == old(Contents())
      ensures !Faulty(old(faults)) ==>
        if role !in roles && EmailTaken(old(Contents()), email)
        then r == Err(Constraint) && Contents() == old(Contents())
        else r == Ok(()) && Contents() == GrantByEmail(old(Contents()), email, role)
    {
      var bad := Trips();
      if bad { return Err(Fault); }
      if role !in roles && (exists u :: u in users && users[u].email == email) { return Err(Constraint); }
      grants := grants + set u | u in users && users[u].email == email :: (u, role);
      return Ok(());
    }

    // tags.sql

    method NewTag(name: string) returns (r: Result<Tag, DbError>)
      modifies this`tags, this`tagSeq, this`faults
      ensures faults == Later(old(faults))
      ensures Faulty(old(faults)) ==> r == Err(Fault) && Contents() == old(Contents())
      ensures !Faulty(old(faults)) ==>
        if NameTaken(old(Contents()), name)
        then r == Err(Constraint) && Contents() == old(Contents())
        else r == Ok(Tag(old(tagSeq) + 1, name)) && Contents() == InsertTag(old(Contents()), name)
    {
      var bad := Trips();
      if bad { return Err(Fault); }
      if exists g :: g in tags && tags[g] == name { return Err(Constraint); }
      tagSeq := tagSeq + 1;
      tags := tags[tagSeq := name];
      return Ok(Tag(tagSeq, name));
    }

    /** The rows whose name is in `names`, each once, in no particular order. */
    method GetExistingTags(names: seq<string>) returns (r: Result<seq<Tag>, DbError>)
      modifies this`faults
      ensures faults == Later(old(faults))
      ensures Faulty(old(faults)) ==> r == Err(Fault)
      ensures !Faulty(old(faults)) ==>
        r.Ok? && forall tag :: tag in r.value <==> tag.id in tags && tags[tag.id] == tag.name && tag.name in names
    {
      var bad := Trips();
      if bad { return Err(Fault); }
      var ids := Enumerate(set g | g in tags && tags[g] in names);
      return Ok(Rows(tags, ids));
    }

    method GetTaskTags(t: Uuid) returns (r: Result<seq<Tag>, DbError>)
      modifies this`faults
      ensures faults == Later(old(faults))
      ensures Faulty(old(faults)) ==> r == Err(Fault)
      ensures !Faulty(old(faults)) ==>
        && r.Ok? && NoRepeats(r.value)
        && forall tag :: tag in r.value <==> tag.id in tags && tags[tag.id] == tag.name && (t, tag.id) in links
    {
      var bad := Trips();
      if bad { return Err(Fault); }
      var ids := Enumerate(set g | g in tags && (t, g) in links);
      return Ok(Rows(tags, ids));
    }

    method AssignTag(t: Uuid, g: TagId) returns (r: Result<(), DbError>)
      modifies this`links, this`faults
      ensures faults == Later(old(faults))
      ensures Faulty(old(faults)) ==> r == Err(Fault) && Contents() == old(Contents())
      ensures !Faulty(old(faults)) ==>
        if (t, g) in old(links) || t !in tasks || g !in tags
        then r == Err(Constraint) && Contents() == old(Contents())
        else r == Ok(()) && Contents() == old(Contents()).(links := old(links) + {(t, g)})
    {
      var bad := Trips();
      if bad { return Err(Fault); }
      if (t, g) in links || t !in tasks || g !in tags { return Err(Constraint); }
      links := links + {(t, g)};
      return Ok(());
    }

    method UnassignTags(ids: seq<TagId>) returns (r: Result<(), DbError>)
      modifies this`links, this`faults
      ensures faults == Later(old(faults))
      ensures Faulty(old(faults)) ==> r == Err(Fault) && Contents() == old(Contents())
      ensures !Faulty(old(faults)) ==> r == Ok(()) && Contents() == Unassign(old(Contents()), Elements(ids))
    {
      var bad := Trips();
      if bad { return Err(Fault); }
      links := set l | l in links && l.1 !in Elements(ids);
      return Ok(());
    }

    method CleanTags() returns (r: Result<(), DbError>)
      modifies this`tags, this`links, this`faults
      ensures faults == Later(old(faults))
      ensures Faulty(old(faults)) ==> r == Err(Fault) && Contents() == old(Contents())
      ensures !Faulty(old(faults)) ==> r == Ok(()) && Contents() == Tables.CleanTags(old(Contents()))
    {
      var bad := Trips();
      if bad { return Err(Fault); }
      tags := tags - Orphans(Contents());
      links := set l | l in links && l.1 in tags;
      return Ok(());
    }

    // tasks.sql

    /** The row scan reads `state` into a uint8 and refuses what does not fit. */
    method GetUserTask(t: Uuid, owner: Uuid) returns (r: Result<Task, DbError>)
      modifies this`faults
      ensures faults == Later(old(faults))
      ensures r == if Faulty(old(faults)) then Err(Fault)
                   else if t !in tasks || tasks[t].owner != owner then Err(NoRows)
                   else if 0 <= tasks[t].state < 256 then Ok(tasks[t]) else Err(Unscannable)
    {
      var bad := Trips();
      if bad { return Err(Fault); }
      if t !in tasks || tasks[t].owner != owner { return Err(NoRows); }
      if tasks[t].state < 0 || 256 <= tasks[t].state { return Err(Unscannable); }
      return Ok(tasks[t]);
    }

    /** The ownership query of `UpdateTask`, keyed by the request's own text. */
    method OwnerOfText(text: IdText) returns (r: Result<Uuid, DbError>)
      modifies this`faults
      ensures faults == Later(old(faults))
      ensures r == if Faulty(old(faults)) then Err(Fault)
                   else if text.Spelled? && text.canonical && text.id in tasks then Ok(tasks[text.id].owner)
                   else Err(NoRows)
    {
      var bad := Trips();
      r := if bad then Err(Fault)
           else if text.Spelled? && text.canonical && text.id in tasks then Ok(tasks[text.id].owner)
           else Err(NoRows);
    }

    method NewTask(id: Uuid, row: Task) returns (r: Result<(), DbError>)
      modifies this`tasks, this`faults
      ensures faults == Later(old(faults))
      ensures Faulty(old(faults)) ==> r == Err(Fault) && Contents() == old(Contents())
      ensures !Faulty(old(faults)) ==>
        if id in old(tasks) || row.owner !in users
        then r == Err(Constraint) && Contents() == old(Contents())
        else r == Ok(()) && Contents() == old(Contents()).(tasks := old(tasks)[id := row])
    {
      var bad := Trips();
      if bad { return Err(Fault); }
      if id in tasks || row.owner !in users { return Err(Constraint); }
      tasks := tasks[id := row];
      return Ok(());
    }

    /** Run a built UPDATE; the result holds the rows its RETURNING clause yields. */
    method ExecUpdate(slots: seq<TaskUpdate.Slot>, args: seq<TaskUpdate.Value>, now: int)
      returns (r: Result<set<Uuid>, DbError>)
      requires |slots| == |args|
      modifies this`tasks, this`faults
      ensures faults == Later(old(faults))
      ensures Faulty(old(faults)) ==> r == Err(Fault) && Contents() == old(Contents())
      ensures !Faulty(old(faults)) ==>
        && r == Ok(TaskUpdate.Hits(old(Contents()), slots, args))
        && Contents() == TaskUpdate.Execute(old(Contents()), slots, args, now)
    {
      var bad := Trips();
      if bad { return Err(Fault); }
      r := Ok(TaskUpdate.Hits(Contents(), slots, args));
      tasks := TaskUpdate.Execute(Contents(), slots, args, now).tasks;
    }

    method DeleteUserTask(owner: Uuid, t: Uuid) returns (r: Result<nat, DbError>)
      modifies this`tasks, this`links, this`faults
      ensures faults == Later(old(faults))
      ensures Faulty(old(faults)) ==> r == Err(Fault) && Contents() == old(Contents())
      ensures !Faulty(old(faults)) ==>
        if t in old(tasks) && old(tasks)[t].owner == owner
        then r == Ok(1) && Contents() == RemoveTask(old(Contents()), t)
        else r == Ok(0) && Contents() == old(Contents())
    {
      var bad := Trips();
      if bad { return Err(Fault); }
      if t in tasks && tasks[t].owner == owner {
        tasks := tasks - {t};
        links := set l | l in links && l.0 in tasks;
        return Ok(1);
      }
      return Ok(0);
    }

    // tokens.sql

    method RevokeToken(id: Uuid, expiry: int) returns (r: Result<(), DbError>)
      modifies this`revoked, this`faults
      ensures faults == Later(old(faults))
      ensures Faulty(old(faults)) ==> r == Err(Fault) && Contents() == old(Contents())
      ensures !Faulty(old(faults)) ==>
        if id in old(revoked) then r == Err(Constraint) && Contents() == old(Contents())
        else r == Ok(()) && Contents() == old(Contents()).(revoked := old(revoked)[id := expiry])
    {
      var bad := Trips();
      if bad { return Err(Fault); }
      if id in revoked { return Err(Constraint); }
      revoked := revoked[id := expiry];
      return Ok(());
    }

    method GetRevokedToken(id: Uuid) returns (r: Result<int, DbError>)
      modifies this`faults
      ensures faults == Later(old(faults))
      ensures r == if Faulty(old(faults)) then Err(Fault)
                   else if id in revoked then Ok(revoked[id]) else Err(NoRows)
    {
      var bad := Trips();
      r := if bad then Err(Fault) else if id in revoked then Ok(revoked[id]) else Err(NoRows);
    }

    method TokenIsRevoked(id: Uuid) returns (r: Result<bool, DbError>)
      modifies this`faults
      ensures faults == Later(old(faults))
      ensures r == if Faulty(old(faults)) then Err(Fault) else Ok(id in revoked)
    {
      var bad := Trips();
      r := if bad then Err(Fault) else Ok(id in revoked);
    }

    method CleanRevokedToken(id: Uuid) returns (r: Result<(), DbError>)
      modifies this`revoked, this`faults
      ensures faults == Later(old(faults))
      ensures Faulty(old(faults)) ==> r == Err(Fault) && Contents() == old(Contents())
      ensures !Faulty(old(faults)) ==>
        r == Ok(()) && Contents() == old(Contents()).(revoked := old(revoked) - {id})
    {
      var bad := Trips();
      if bad { return Err(Fault); }
      revoked := revoked - {id};
      return Ok(());
    }

    method GetAllRevokedTokens() returns (r: Result<seq<Uuid>, DbError>)
      modifies this`faults
      ensures faults == Later(old(faults))
      ensures Faulty(old(faults)) ==> r == Err(Fault)
      ensures !Faulty(old(faults)) ==>
        r.Ok? && NoRepeats(r.value) && forall id :: id in r.value <==> id in revoked
    {
      var bad := Trips();
      if bad { return Err(Fault); }
      var ids := Enumerate(revoked.Keys);
      return Ok(ids);
    }
  }
}
