/** Runs of committed operations. Each operation is the effect that one handler's contract promises
    when it succeeds; a request that is refused or fails leaves the tables alone, as does one that is
    not listed because it only reads. */
module Runs {
  import opened Basics
  import opened Tables
  import opened TaskUpdate
  import Tags
  import Tasks
  import Accounts
  import Bootstrap

  datatype Op =
    | Create(who: Uuid, id: Uuid, data: TaskData, now: int)                         // NewTask
    | Update(who: Uuid, text: IdText, data: TaskData, masks: set<Mask>, now: int)   // UpdateTask
    | Delete(who: Uuid, id: Uuid)                                                   // DeleteTask
    | Clean                                                                        // cleanTags
    | Enrol(id: Uuid, req: Accounts.Signup, secret: Secret, now: int)              // newUser
    | Rename(id: Uuid, name: string, email: string, now: int)                      // updateUser
    | Rekey(id: Uuid, secret: Secret, now: int)                                    // updateUserCredentials
    | Leave(id: Uuid)                                                              // DeleteUser
    | Ensure(id: Uuid, secret: Secret, now: int)                                   // validateAdmin
    | Revoke(id: Uuid, expiry: int)                                                // RevokeToken
    | Prune(id: Uuid)                                                              // CleanRevokedToken

  function Step(db: Db, op: Op): Db {
    match op
    case Create(who, id, data, now) =>
      if Tasks.CanCreate(db, who, id) then Tasks.Created(db, who, id, data, now) else db
    case Update(who, text, data, masks, now) =>
      var r := Tasks.Updated(db, who, text, data, masks, now);
      if r.Ok? then r.value else db
    case Delete(who, id) => if id in db.tasks && db.tasks[id].owner == who then RemoveTask(db, id) else db
    case Clean => CleanTags(db)
    case Enrol(id, req, secret, now) =>
      if id !in db.users && !EmailTaken(db, req.email) then Accounts.WithUser(db, id, req, secret, now) else db
    case Rename(id, name, email, now) =>
      if id in db.users && !Accounts.EmailTakenByOther(db, id, email)
      then Accounts.Renamed(db, id, name, email, now) else db
    case Rekey(id, secret, now) => Accounts.Rekeyed(db, id, secret, now)
    case Leave(id) => RemoveUser(db, id)
    case Ensure(id, secret, now) =>
      if Bootstrap.NeedsUser(db) && id in db.users then db else Bootstrap.AdminEnsured(db, id, secret, now)
    case Revoke(id, expiry) => if id in db.revoked then db else db.(revoked := db.revoked[id := expiry])
    case Prune(id) => db.(revoked := db.revoked - {id})
  }

  function Run(db: Db, ops: seq<Op>): Db
    decreases |ops|
  {
    if ops == [] then db else Run(Step(db, ops[0]), ops[1..])
  }

  // Every constraint holds in every run

  lemma CreatedIntegrity(db: Db, owner: Uuid, id: Uuid, data: TaskData, now: int)
    requires Integrity(db) && Tasks.CanCreate(db, owner, id)
    ensures Integrity(Tasks.Created(db, owner, id, data, now))
  {
    Tags.SyncIntegrity(db.(tasks := db.tasks[id := Tasks.RowOf(data, owner, now)]), id, data.tags);
  }

  lemma OverlaidIntegrity(db: Db, id: Uuid, data: TaskData, masks: set<Mask>, now: int)
    requires Integrity(db) && id in db.tasks
    ensures Integrity(Overlaid(db, id, data, masks, now))
  {
  }

  lemma UpdatedIntegrity(db: Db, who: Uuid, text: IdText, data: TaskData, masks: set<Mask>, now: int)
    requires Integrity(db) && Tasks.Updated(db, who, text, data, masks, now).Ok?
    ensures Integrity(Tasks.Updated(db, who, text, data, masks, now).value)
  {
    var tagged := if TAGS in masks then Tags.Sync(db, text.id, data.tags) else db;
    Tags.SyncIntegrity(db, text.id, data.tags);
    Tags.CreateTagsKeeps(db, data.tags);
    OverlaidIntegrity(tagged, text.id, data, masks, now);
  }

  lemma RenameIntegrity(db: Db, id: Uuid, name: string, email: string, now: int)
    requires Integrity(db) && id in db.users && !Accounts.EmailTakenByOther(db, id, email)
    ensures Integrity(Accounts.Renamed(db, id, name, email, now))
  {
    var after := Accounts.Renamed(db, id, name, email, now);
    assert after == db.(users := after.users) && after.users.Keys == db.users.Keys;
    assert UniqueEmails(after.users);
  }

  lemma RekeyIntegrity(db: Db, id: Uuid, secret: Secret, now: int)
    requires Integrity(db)
    ensures Integrity(Accounts.Rekeyed(db, id, secret, now))
  {
    var after := Accounts.Rekeyed(db, id, secret, now);
    assert after == db.(users := after.users, secrets := after.secrets);
    assert after.users.Keys == db.users.Keys && after.secrets.Keys == db.secrets.Keys;
    assert UniqueEmails(after.users);
  }

  lemma TaskStepIntegrity(db: Db, op: Op)
    requires Integrity(db) && (op.Create? || op.Update? || op.Delete? || op.Clean?)
    ensures Integrity(Step(db, op))
  {
    match op
    case Create(who, id, data, now) =>
      if Tasks.CanCreate(db, who, id) { CreatedIntegrity(db, who, id, data, now); }
    case Update(who, text, data, masks, now) =>
      if Tasks.Updated(db, who, text, data, masks, now).Ok? { UpdatedIntegrity(db, who, text, data, masks, now); }
    case Delete(_, id) => Tasks.RemoveTaskExactly(db, id);
    case Clean => Tags.CleanTagsEffect(db);
  }

  lemma AccountStepIntegrity(db: Db, op: Op)
    requires Integrity(db) && (op.Enrol? || op.Rename? || op.Rekey? || op.Leave?)
    ensures Integrity(Step(db, op))
  {
    match op
    case Enrol(id, req, secret, now) =>
      if id !in db.users && !EmailTaken(db, req.email) { Bootstrap.NewAccountKeeps(db, id, req, secret, now); }
    case Rename(id, name, email, now) =>
      if id in db.users && !Accounts.EmailTakenByOther(db, id, email) { RenameIntegrity(db, id, name, email, now); }
    case Rekey(id, secret, now) => RekeyIntegrity(db, id, secret, now);
    case Leave(id) => Accounts.RemoveUserExactly(db, id);
  }

  lemma EnsureIntegrity(db: Db, id: Uuid, secret: Secret, now: int)
    requires Integrity(db)
    ensures Integrity(Step(db, Ensure(id, secret, now)))
  {
    if !(Bootstrap.NeedsUser(db) && id in db.users) { Bootstrap.AdminGuaranteed(db, id, secret, now); }
  }

  lemma StepIntegrity(db: Db, op: Op)
    requires Integrity(db)
    ensures Integrity(Step(db, op))
  {
    if op.Create? || op.Update? || op.Delete? || op.Clean? {
      TaskStepIntegrity(db, op);
    } else if op.Ensure? {
      EnsureIntegrity(db, op.id, op.secret, op.now);
    } else if !op.Revoke? && !op.Prune? {
      AccountStepIntegrity(db, op);
    }
  }

  /** Emails and tag names stay unique, every row refers to existing rows, and every user has exactly
      one secret, in every run of every handler. */
  lemma {:induction false} RunIntegrity(db: Db, ops: seq<Op>)
    requires Integrity(db)
    ensures Integrity(Run(db, ops))
    decreases |ops|
  {
    if ops != [] {
      StepIntegrity(db, ops[0]);
      RunIntegrity(Step(db, ops[0]), ops[1..]);
    }
  }

  // What one user's operations do to another user

  function TasksOf(db: Db, u: Uuid): map<Uuid, Task> {
    map t | t in db.tasks && db.tasks[t].owner == u :: db.tasks[t]
  }

  /** Not an operation of user `u` on its own tasks, nor the deletion of `u`. */
  predicate Foreign(op: Op, u: Uuid) {
    match op
    case Create(who, _, _, _) => who != u
    case Update(who, _, _, _, _) => who != u
    case Delete(who, _) => who != u
    case Leave(id) => id != u
    case _ => true
  }

  /** The names an operation takes off every task, not only its own: those it removes from the task it
      retags. */
  function Taken(db: Db, op: Op): set<string> {
    match op
    case Update(who, text, data, masks, now) =>
      if TAGS in masks && Tasks.Updated(db, who, text, data, masks, now).Ok?
      then NamesOf(db, text.id) - Elements(data.tags) else {}
    case _ => {}
  }

  /** A task whose links and tag rows are as before has the names it had. */
  lemma NamesFrame(before: Db, after: Db, t: Uuid)
    requires forall g :: (t, g) in before.links <==> (t, g) in after.links
    requires forall g :: (t, g) in before.links ==>
      (g in before.tags <==> g in after.tags) && (g in before.tags ==> before.tags[g] == after.tags[g])
    ensures NamesOf(after, t) == NamesOf(before, t)
  {
    forall name | name in NamesOf(before, t)
      ensures name in NamesOf(after, t)
    {
      var l :| l in before.links && l.0 == t && l.1 in before.tags && before.tags[l.1] == name;
      assert (t, l.1) in after.links;
    }
    forall name | name in NamesOf(after, t)
      ensures name in NamesOf(before, t)
    {
      var l :| l in after.links && l.0 == t && l.1 in after.tags && after.tags[l.1] == name;
      assert (t, l.1) in before.links;
    }
  }

  lemma TasksFrame(before: Db, after: Db, u: Uuid, t: Uuid, row: Task)
    requires row.owner != u && (t in before.tasks ==> before.tasks[t].owner != u)
    requires after.tasks == before.tasks[t := row] || after.tasks == before.tasks - {t}
    ensures TasksOf(after, u) == TasksOf(before, u)
  {
  }

  lemma ForeignCreate(db: Db, op: Op, u: Uuid, t: Uuid)
    requires Integrity(db) && op.Create? && Tasks.CanCreate(db, op.who, op.id)
    requires Foreign(op, u) && t in db.tasks && db.tasks[t].owner == u
    ensures TasksOf(Step(db, op), u) == TasksOf(db, u)
    ensures NamesOf(Step(db, op), t) == NamesOf(db, t)
  {
    var row := Tasks.RowOf(op.data, op.who, op.now);
    var inserted := db.(tasks := db.tasks[op.id := row]);
    Tags.CreateTagsKeeps(inserted, op.data.tags);
    TasksFrame(db, Step(db, op), u, op.id, row);
    NamesFrame(db, inserted, t);
    Tags.SyncFrame(inserted, op.id, op.data.tags, t);
    assert NamesOf(inserted, op.id) == {};
  }

  lemma ForeignUpdate(db: Db, op: Op, u: Uuid, t: Uuid)
    requires Integrity(db) && op.Update? && Tasks.Updated(db, op.who, op.text, op.data, op.masks, op.now).Ok?
    requires Foreign(op, u) && t in db.tasks && db.tasks[t].owner == u
    ensures TasksOf(Step(db, op), u) == TasksOf(db, u)
    ensures NamesOf(Step(db, op), t) == NamesOf(db, t) - Taken(db, op)
  {
    var id := op.text.id;
    Tags.CreateTagsKeeps(db, op.data.tags);
    var tagged := if TAGS in op.masks then Tags.Sync(db, id, op.data.tags) else db;
    var row := Overlay(tagged.tasks[id], op.data, op.masks).(updated := op.now);
    TasksFrame(db, Step(db, op), u, id, row);
    if TAGS in op.masks { Tags.SyncFrame(db, id, op.data.tags, t); }
    NamesFrame(tagged, Step(db, op), t);
  }

  lemma ForeignDelete(db: Db, op: Op, u: Uuid, t: Uuid)
    requires Integrity(db) && op.Delete? && op.id in db.tasks && db.tasks[op.id].owner == op.who
    requires Foreign(op, u) && t in db.tasks && db.tasks[t].owner == u
    ensures TasksOf(Step(db, op), u) == TasksOf(db, u)
    ensures NamesOf(Step(db, op), t) == NamesOf(db, t)
  {
    Tasks.RemoveTaskExactly(db, op.id);
    TasksFrame(db, Step(db, op), u, op.id, db.tasks[op.id]);
    NamesFrame(db, Step(db, op), t);
  }

  lemma ForeignLeave(db: Db, op: Op, u: Uuid, t: Uuid)
    requires Integrity(db) && op.Leave? && Foreign(op, u) && t in db.tasks && db.tasks[t].owner == u
    ensures TasksOf(Step(db, op), u) == TasksOf(db, u)
    ensures NamesOf(Step(db, op), t) == NamesOf(db, t)
  {
    LeaveTakesOwnTasks(db, op.id);
    Accounts.CascadeMeans(db, op.id);
    NamesFrame(db, Step(db, op), t);
  }

  /** A user's deletion takes with it, of all tasks, exactly the user's own. */
  lemma LeaveTakesOwnTasks(db: Db, u: Uuid)
    requires Integrity(db)
    ensures Step(db, Leave(u)).tasks == db.tasks - TasksOf(db, u).Keys
    ensures forall v :: v != u ==> TasksOf(Step(db, Leave(u)), v) == TasksOf(db, v)
  {
    Accounts.CascadeMeans(db, u);
    var after := Step(db, Leave(u));
    assert after.tasks == db.tasks - TasksOf(db, u).Keys by { OthersTasks(db.tasks, u); }
    forall v | v != u
      ensures TasksOf(after, v) == TasksOf(db, v)
    {
      StayingTasks(db, after, u, v);
    }
  }

  lemma OthersTasks(tasks: map<Uuid, Task>, u: Uuid)
    ensures (map t | t in tasks && tasks[t].owner != u :: tasks[t])
            == tasks - (map t | t in tasks && tasks[t].owner == u :: tasks[t]).Keys
  {
  }

  lemma StayingTasks(before: Db, after: Db, u: Uuid, v: Uuid)
    requires v != u && after.tasks == map t | t in before.tasks && before.tasks[t].owner != u :: before.tasks[t]
    ensures TasksOf(after, v) == TasksOf(before, v)
  {
  }

  /** Operations on accounts and tokens stay away from tasks, links and tags. */
  lemma ElsewhereStep(db: Db, op: Op)
    requires op.Enrol? || op.Rename? || op.Rekey? || op.Ensure? || op.Revoke? || op.Prune?
    ensures var after := Step(db, op);
      after.tasks == db.tasks && after.links == db.links && after.tags == db.tags
  {
    if op.Ensure? { EnsuringStep(db, op); } else if op.Enrol? || op.Rename? || op.Rekey? { AccountStep(db, op); }
  }

  lemma EnsuringStep(db: Db, op: Op)
    requires op.Ensure?
    ensures var after := Step(db, op);
      after.tasks == db.tasks && after.links == db.links && after.tags == db.tags
  {
  }

  lemma AccountStep(db: Db, op: Op)
    requires op.Enrol? || op.Rename? || op.Rekey?
    ensures var after := Step(db, op);
      after.tasks == db.tasks && after.links == db.links && after.tags == db.tags
  {
  }

  lemma ForeignElsewhere(db: Db, op: Op, u: Uuid, t: Uuid)
    requires op.Enrol? || op.Rename? || op.Rekey? || op.Ensure? || op.Revoke? || op.Prune?
    ensures TasksOf(Step(db, op), u) == TasksOf(db, u)
    ensures NamesOf(Step(db, op), t) == NamesOf(db, t)
  {
    ElsewhereStep(db, op);
    NamesFrame(db, Step(db, op), t);
  }

  /** No operation of one user changes another user's task rows, and the only thing it can do to the
      tags of such a task is to take off the names it removes from a task of its own. */
  lemma ForeignStep(db: Db, op: Op, u: Uuid, t: Uuid)
    requires Integrity(db) && Foreign(op, u) && t in db.tasks && db.tasks[t].owner == u
    ensures TasksOf(Step(db, op), u) == TasksOf(db, u)
    ensures NamesOf(Step(db, op), t) == NamesOf(db, t) - Taken(db, op)
  {
    match op {
      case Create(who, id, _, _) =>
        if Tasks.CanCreate(db, who, id) { ForeignCreate(db, op, u, t); }
      case Update(who, text, data, masks, now) =>
        if Tasks.Updated(db, who, text, data, masks, now).Ok? { ForeignUpdate(db, op, u, t); }
      case Delete(who, id) =>
        if id in db.tasks && db.tasks[id].owner == who { ForeignDelete(db, op, u, t); }
      case Leave(_) => ForeignLeave(db, op, u, t);
      case Clean => Tags.CleanTagsEffect(db);
      case _ => ForeignElsewhere(db, op, u, t);
    }
  }

  /** Operations foreign to `u`, none of which takes one of the names of task `t`. */
  ghost predicate Spares(db: Db, ops: seq<Op>, u: Uuid, t: Uuid)
    decreases |ops|
  {
    ops == [] ||
    (Foreign(ops[0], u) && Taken(db, ops[0]) !! NamesOf(db, t) && Spares(Step(db, ops[0]), ops[1..], u, t))
  }

  lemma {:induction false} ForeignRun(db: Db, ops: seq<Op>, u: Uuid, t: Uuid)
    requires Integrity(db) && Spares(db, ops, u, t) && t in db.tasks && db.tasks[t].owner == u
    ensures var after := Run(db, ops);
      t in after.tasks && after.tasks[t] == db.tasks[t] && NamesOf(after, t) == NamesOf(db, t)
    decreases |ops|
  {
    if ops != [] {
      var next := Step(db, ops[0]);
      ForeignStep(db, ops[0], u, t);
      assert t in TasksOf(db, u);
      assert t in TasksOf(next, u) && TasksOf(next, u)[t] == db.tasks[t];
      assert NamesOf(next, t) == NamesOf(db, t);
      StepIntegrity(db, ops[0]);
      ForeignRun(next, ops[1..], u, t);
    }
  }

  /** Other users' operations between the two reads of `GetTask` do not show, as long as they take none of
      the task's tags: the view is that of either moment. */
  lemma ReadsAgree(db: Db, ops: seq<Op>, u: Uuid, t: Uuid, view: Tasks.TaskView)
    requires Integrity(db) && Spares(db, ops, u, t) && t in db.tasks && db.tasks[t].owner == u
    requires Tasks.RendersAcross(db, Run(db, ops), t, view)
    ensures Tasks.Renders(db, t, view) && Tasks.Renders(Run(db, ops), t, view)
  {
    ForeignRun(db, ops, u, t);
  }

  /** The owner's own operations can show: deleting the task in between leaves its row in the view, and no
      tag, which neither moment has. */
  lemma TornByDelete(db: Db, t: Uuid, view: Tasks.TaskView)
    requires Integrity(db) && t in db.tasks && NamesOf(db, t) != {}
    requires Tasks.RendersAcross(db, Run(db, [Delete(db.tasks[t].owner, t)]), t, view)
    ensures view.tags == [] && !Tasks.Renders(db, t, view)
    ensures !Tasks.Renders(Run(db, [Delete(db.tasks[t].owner, t)]), t, view)
  {
    var op := Delete(db.tasks[t].owner, t);
    assert Run(db, [op]) == Step(db, op) by { assert [op][1..] == []; }
    Tasks.RemoveTaskExactly(db, t);
    assert NamesOf(Step(db, op), t) == {};
    NoElements(view.tags);
  }

  lemma NoElements<T>(s: seq<T>)
    ensures Elements(s) == {} <==> s == []
  {
    if s != [] { assert s[0] in Elements(s); }
  }

  /** What `NewTask` stored is still what `GetTask` shows its owner after any run of other users'
      operations that takes none of its tags. */
  lemma TaskOutlivesOthers(db: Db, owner: Uuid, id: Uuid, data: TaskData, now: int, ops: seq<Op>, view: Tasks.TaskView)
    requires Integrity(db) && Tasks.CanCreate(db, owner, id)
    requires Spares(Tasks.Created(db, owner, id, data, now), ops, owner, id)
    requires Tasks.Renders(Run(Tasks.Created(db, owner, id, data, now), ops), id, view)
    ensures Tasks.Readable(Run(Tasks.Created(db, owner, id, data, now), ops), id, owner)
    ensures view == Tasks.TaskView(id, data.title, data.desc, data.priority, view.tags, data.start, data.due,
                                   data.state % 256, data.pattern, data.active, now, now)
    ensures Elements(view.tags) == Elements(data.tags)
  {
    var created := Tasks.Created(db, owner, id, data, now);
    CreatedIntegrity(db, owner, id, data, now);
    CreatedRow(db, owner, id, data, now);
    ForeignRun(created, ops, owner, id);
    assert Tasks.Renders(created, id, view);
    Tasks.TaskRoundTrip(db, owner, id, data, now, view);
  }

  lemma CreatedRow(db: Db, owner: Uuid, id: Uuid, data: TaskData, now: int)
    requires Tasks.CanCreate(db, owner, id)
    ensures var created := Tasks.Created(db, owner, id, data, now);
      id in created.tasks && created.tasks[id] == Tasks.RowOf(data, owner, now)
  {
    Tags.CreateTagsKeeps(db.(tasks := db.tasks[id := Tasks.RowOf(data, owner, now)]), data.tags);
  }
}
