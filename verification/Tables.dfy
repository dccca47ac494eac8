/** The SQLite tables as values, the constraints of schema.sql, and the meaning of the
    statements that change them. A `Db` is one committed (or in-transaction) state. */
module Tables {
  import opened Basics

  type Uuid = nat
  type TagId = nat

  /** The text a client sends for an id, as `uuid.Parse` sees it: unparsable, or some spelling of
      an id. Rows store the canonical spelling, so SQL text equality only matches that one. */
  datatype IdText = Malformed | Spelled(id: Uuid, canonical: bool)

  datatype User = User(name: string, email: string, created: int, updated: int)
  datatype Secret = Secret(salt: string, hash: string)
  datatype Task = Task(
    title: string, state: int, priority: int, desc: Option<string>, due: int, start: int,
    pattern: Option<string>, recurring: bool, created: int, updated: int, owner: Uuid)

  datatype Db = Db(
    users: map<Uuid, User>,
    secrets: map<Uuid, Secret>,
    tasks: map<Uuid, Task>,
    tags: map<TagId, string>,
    tagSeq: nat,                 // the AUTOINCREMENT counter kept in sqlite_sequence
    links: set<(Uuid, TagId)>,     // task_tags
    roles: set<string>,
    grants: set<(Uuid, string)>, // user_roles
    revoked: map<Uuid, int>)     // token id to expiry

  /** The UNIQUE, PRIMARY KEY and FOREIGN KEY constraints of schema.sql, plus the one rule only the
      handlers maintain: every user has exactly one secret. */
  ghost predicate Integrity(db: Db) {
    && UniqueEmails(db.users)
    && db.secrets.Keys == db.users.Keys
    && (forall t :: t in db.tasks ==> db.tasks[t].owner in db.users)
    && (forall g :: g in db.tags ==> 1 <= g <= db.tagSeq)
    && UniqueNames(db.tags)
    && (forall l :: l in db.links ==> l.0 in db.tasks && l.1 in db.tags)
    && (forall a :: a in db.grants ==> a.0 in db.users && a.1 in db.roles)
  }

  ghost predicate UniqueEmails(users: map<Uuid, User>) {
    forall u, v :: u in users && v in users && users[u].email == users[v].email ==> u == v
  }

  ghost predicate UniqueNames(tags: map<TagId, string>) {
    forall g, h :: g in tags && h in tags && tags[g] == tags[h] ==> g == h
  }

  predicate EmailTaken(db: Db, email: string) {
    exists u :: u in db.users && db.users[u].email == email
  }

  predicate NameTaken(db: Db, name: string) {
    exists g :: g in db.tags && db.tags[g] == name
  }

  /** Ids of the tags linked to task `t`. */
  function Linked(db: Db, t: Uuid): set<TagId> {
    set l | l in db.links && l.0 == t :: l.1
  }

  /** Names of the tags linked to task `t`: what a client sees as the task's tags. */
  function NamesOf(db: Db, t: Uuid): set<string> {
    set l | l in db.links && l.0 == t && l.1 in db.tags :: db.tags[l.1]
  }

  /** Tags no task uses. */
  function Orphans(db: Db): set<TagId> {
    set g | g in db.tags && !exists l :: l in db.links && l.1 == g
  }

  predicate HasRole(db: Db, role: string) {
    exists a :: a in db.grants && a.1 == role
  }

  // ON DELETE CASCADE: after a parent row is gone, so is every child row that names it.

  function CascadeTasks(db: Db): Db {
    db.(links := set l | l in db.links && l.0 in db.tasks)
  }

  function CascadeTags(db: Db): Db {
    db.(links := set l | l in db.links && l.1 in db.tags)
  }

  function CascadeUsers(db: Db): Db {
    CascadeTasks(db.(
      secrets := map u | u in db.secrets && u in db.users :: db.secrets[u],
      tasks := map t | t in db.tasks && db.tasks[t].owner in db.users :: db.tasks[t],
      grants := set a | a in db.grants && a.0 in db.users))
  }

  // Statements of resources/queries. Constraint checks are made by the Store's methods.

  function InsertUser(db: Db, id: Uuid, name: string, email: string, now: int): Db {
    db.(users := db.users[id := User(name, email, now, now)])
  }

  function InsertSecret(db: Db, id: Uuid, secret: Secret): Db {
    db.(secrets := db.secrets[id := secret])
  }

  function RemoveUser(db: Db, id: Uuid): Db {
    CascadeUsers(db.(users := db.users - {id}))
  }

  /** `UpdateUserModified` has no WHERE clause: every row is stamped. */
  function StampUsers(db: Db, now: int): Db {
    db.(users := map u | u in db.users :: db.users[u].(updated := now))
  }

  function SetSecret(db: Db, id: Uuid, secret: Secret): Db {
    if id in db.secrets then db.(secrets := db.secrets[id := secret]) else db
  }

  function GrantByEmail(db: Db, email: string, role: string): Db {
    db.(grants := db.grants + set u | u in db.users && db.users[u].email == email :: (u, role))
  }

  function InsertTag(db: Db, name: string): Db {
    db.(tags := db.tags[db.tagSeq + 1 := name], tagSeq := db.tagSeq + 1)
  }

  /** `UnassignTags` filters on the tag only, not on the task. */
  function Unassign(db: Db, ids: set<TagId>): Db {
    db.(links := set l | l in db.links && l.1 !in ids)
  }

  function CleanTags(db: Db): Db {
    CascadeTags(db.(tags := db.tags - Orphans(db)))
  }

  function RemoveTask(db: Db, id: Uuid): Db {
    CascadeTasks(db.(tasks := db.tasks - {id}))
  }
}
