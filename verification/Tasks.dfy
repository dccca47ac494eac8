/** The task endpoints: `NewTask`, `GetTask`, `UpdateTask` and `DeleteTask`. Each specification
    function gives the tables after a committed call, or the status code of a refused one. */
module Tasks {
  import opened Basics
  import opened Tables
  import opened Store
  import opened Credentials
  import opened TaskUpdate
  import Tags

  // NewTask

  /** `uint8(t.State)`, and NULL for empty strings. */
  function RowOf(data: TaskData, owner: Uuid, now: int): Task {
    Task(data.title, data.state % 256, data.priority, Nullable(data.desc), data.due, data.start,
         Nullable(data.pattern), data.active, now, now, owner)
  }

  predicate CanCreate(db: Db, owner: Uuid, id: Uuid) {
    id !in db.tasks && owner in db.users
  }

  function Created(db: Db, owner: Uuid, id: Uuid, data: TaskData, now: int): Db {
    Tags.Sync(db.(tasks := db.tasks[id := RowOf(data, owner, now)]), id, data.tags)
  }

  method NewTask(store: Database, ctx: Option<Creds>, data: TaskData, id: Uuid, now: int)
    returns (r: Result<(Uuid, int, int), Code>, cleanup: bool)
    requires Integrity(store.Contents())
    modifies store
    ensures r.Ok? ==>
      && ctx.Some? && ctx.value.typ == Access && CanCreate(old(store.Contents()), ctx.value.subject, id)
      && store.Contents() == Created(old(store.Contents()), ctx.value.subject, id, data, now)
      && r.value == (id, now, now)
    ensures r.Err? ==> store.Contents() == old(store.Contents())
    ensures cleanup <==> r.Ok?
    ensures GetCreds(ctx, Access).Err? ==> r == Err(GetCreds(ctx, Access).error)
    ensures GetCreds(ctx, Access).Ok? && r.Err? ==> r == Err(Internal)
    ensures old(store.faults) == [] ==>
      && store.faults == []
      && (GetCreds(ctx, Access).Ok? ==> (r.Ok? <==> CanCreate(old(store.Contents()), ctx.value.subject, id)))
  {
    cleanup := false;
    var creds := GetCreds(ctx, Access);
    if creds.Err? { return Err(creds.error), false; }
    var tx := store.Begin();
    if tx.Err? { return Err(Internal), false; }
    r := InsertTask(store, creds.value.subject, data, id, now);
    if r.Err? {
      store.Rollback(tx.value);
    }
    cleanup := r.Ok?;
  }

  /** The body of `NewTask` between begin and the deferred rollback. */
  method InsertTask(store: Database, owner: Uuid, data: TaskData, id: Uuid, now: int)
    returns (r: Result<(Uuid, int, int), Code>)
    requires Integrity(store.Contents())
    modifies store
    ensures r.Ok? ==>
      && CanCreate(old(store.Contents()), owner, id)
      && store.Contents() == Created(old(store.Contents()), owner, id, data, now)
      && r.value == (id, now, now)
    ensures r.Err? ==> r.error == Internal
    ensures old(store.faults) == [] ==> store.faults == [] && (r.Ok? <==> CanCreate(old(store.Contents()), owner, id))
  {
    var row := Task(data.title, data.state % 256, data.priority,
                    if data.desc != "" then Some(data.desc) else None, data.due, data.start,
                    if data.pattern != "" then Some(data.pattern) else None, data.active, now, now, owner);
    var task := store.NewTask(id, row);
    if task.Err? { return Err(Internal); }
    if |data.tags| > 0 {
      var synced := Tags.SyncTags(store, id, data.tags);
      if synced.Err? { return Err(synced.error); }
    } else {
      Tags.SyncSettles(store.Contents(), id, data.tags);
      assert Tags.InSync(store.Contents(), id, data.tags);
    }
    var done := store.Commit();
    if done.Err? { return Err(Internal); }
    return Ok((id, now, now));
  }

  /** The housekeeping goroutine: its failure is logged and dropped. */
  method CleanTags(store: Database)
    modifies store
    ensures store.faults == Later(old(store.faults))
    ensures store.Contents() ==
      if Faulty(old(store.faults)) then old(store.Contents()) else Tables.CleanTags(old(store.Contents()))
  {
    var _ := store.CleanTags();
  }

  // GetTask

  datatype TaskView = TaskView(
    id: Uuid, title: string, desc: string, priority: int, tags: seq<string>, start: int, due: int,
    state: int, pattern: string, active: bool, created: int, updated: int)

  /** `view` shows row `id` as `db` holds it, and the names of its tags as `later` does. */
  ghost predicate RendersAcross(db: Db, later: Db, id: Uuid, view: TaskView) {
    && id in db.tasks
    && var row := db.tasks[id];
      && view == TaskView(id, row.title, OrEmpty(row.desc), row.priority, view.tags, row.start, row.due,
                          row.state, OrEmpty(row.pattern), row.recurring, row.created, row.updated)
      && Elements(view.tags) == NamesOf(later, id)
      && NoRepeats(view.tags)
  }

  /** Row and tags of one state. */
  ghost predicate Renders(db: Db, id: Uuid, view: TaskView) {
    RendersAcross(db, db, id, view)
  }

  predicate Readable(db: Db, id: Uuid, caller: Uuid) {
    id in db.tasks && db.tasks[id].owner == caller && 0 <= db.tasks[id].state < 256
  }

  method TaskToPb(id: Uuid, row: Task, tags: seq<Tag>) returns (view: TaskView)
    ensures view == TaskView(id, row.title, OrEmpty(row.desc), row.priority, view.tags, row.start, row.due,
                             row.state, OrEmpty(row.pattern), row.recurring, row.created, row.updated)
    ensures |view.tags| == |tags| && forall i :: 0 <= i < |tags| ==> view.tags[i] == tags[i].name
  {
    var tagsStr := new string[|tags|];
    for i := 0 to |tags|
      invariant forall k :: 0 <= k < i ==> tagsStr[k] == tags[k].name
    {
      tagsStr[i] := tags[i].name;
    }
    view := TaskView(id, row.title, OrEmpty(row.desc), row.priority, tagsStr[..], row.start, row.due,
                     row.state, OrEmpty(row.pattern), row.recurring, row.created, row.updated);
  }

  lemma TagRowsRender(db: Db, id: Uuid, rows: seq<Tag>, names: seq<string>)
    requires Integrity(db) && NoRepeats(rows) && Tags.OnTask(rows, db, id)
    requires |names| == |rows| && forall i :: 0 <= i < |rows| ==> names[i] == rows[i].name
    ensures Elements(names) == NamesOf(db, id) && NoRepeats(names)
  {
    forall name | name in names
      ensures name in NamesOf(db, id)
    {
      var i :| 0 <= i < |names| && names[i] == name;
      assert rows[i] in rows;
      assert (id, rows[i].id) in db.links;
    }
    forall name | name in NamesOf(db, id)
      ensures name in names
    {
      var l :| l in db.links && l.0 == id && l.1 in db.tags && db.tags[l.1] == name;
      assert Tag(l.1, name) in rows;
      var i :| 0 <= i < |rows| && rows[i] == Tag(l.1, name);
      assert names[i] == name;
    }
    forall i, j | 0 <= i < j < |names|
      ensures names[i] != names[j]
    {
      assert rows[i] in rows && rows[j] in rows;
    }
  }

  /** Row and tags are read by two statements outside a transaction; `others` is what is committed in
      between. */
  method GetTask(store: Database, ctx: Option<Creds>, text: IdText, others: Db -> Db)
    returns (r: Result<TaskView, Code>)
    requires Integrity(others(store.Contents()))
    modifies store
    ensures store.Contents() == old(store.Contents()) || store.Contents() == others(old(store.Contents()))
    ensures r.Ok? ==>
      && ctx.Some? && ctx.value.typ == Access && text.Spelled?
      && Readable(old(store.Contents()), text.id, ctx.value.subject)
      && RendersAcross(old(store.Contents()), others(old(store.Contents())), text.id, r.value)
    ensures GetCreds(ctx, Access).Err? ==> r == Err(GetCreds(ctx, Access).error)
    ensures GetCreds(ctx, Access).Ok? && r.Err? ==> r.error == if text.Malformed? then InvalidArgument else Internal
    ensures old(store.faults) == [] ==>
      && store.faults == []
      && (GetCreds(ctx, Access).Ok? ==>
            (r.Ok? <==> text.Spelled? && Readable(old(store.Contents()), text.id, ctx.value.subject)))
  {
    var creds := GetCreds(ctx, Access);
    if creds.Err? { return Err(creds.error); }
    if text.Malformed? { return Err(InvalidArgument); }
    var task := store.GetUserTask(text.id, creds.value.subject);
    if task.Err? { return Err(Internal); }
    store.Meanwhile(others);
    var tags := store.GetTaskTags(text.id);
    if tags.Err? { return Err(Internal); }
    var view := TaskToPb(text.id, task.value, tags.value);
    TagRowsRender(store.Contents(), text.id, tags.value, view.tags);
    return Ok(view);
  }

  /** Two reads show what one would have shown exactly when the names of the tags were the same. */
  lemma TornExactly(db: Db, later: Db, id: Uuid, view: TaskView)
    requires RendersAcross(db, later, id, view)
    ensures Renders(db, id, view) <==> NamesOf(later, id) == NamesOf(db, id)
  {
  }

  /** What `GetTask` shows after `NewTask` is what was sent; the state survives if and only if it
      fits a byte, which covers every declared `TaskState`. */
  lemma TaskRoundTrip(db: Db, owner: Uuid, id: Uuid, data: TaskData, now: int, view: TaskView)
    requires Integrity(db) && CanCreate(db, owner, id)
    requires Renders(Created(db, owner, id, data, now), id, view)
    ensures Readable(Created(db, owner, id, data, now), id, owner)
    ensures view == TaskView(id, data.title, data.desc, data.priority, view.tags, data.start, data.due,
                             data.state % 256, data.pattern, data.active, now, now)
    ensures view.state == data.state <==> 0 <= data.state < 256
    ensures Elements(view.tags) == Elements(data.tags)
  {
    var inserted := db.(tasks := db.tasks[id := RowOf(data, owner, now)]);
    Tags.CreateTagsEffect(inserted, data.tags);
    Tags.SyncNames(inserted, id, data.tags);
  }

  // UpdateTask

  function Updated(db: Db, caller: Uuid, text: IdText, data: TaskData, masks: set<Mask>, now: int): Result<Db, Code> {
    if text.Malformed? then Err(Internal)
    else if TAGS in masks && data.tags != [] && text.id !in db.tasks then Err(Internal)
    else if !text.canonical || text.id !in db.tasks then Err(NotFound)
    else if db.tasks[text.id].owner != caller then Err(PermissionDenied)
    else
      var tagged := if TAGS in masks then Tags.Sync(db, text.id, data.tags) else db;
      Tags.CreateTagsKeeps(db, data.tags);
      Ok(Overlaid(tagged, text.id, data, masks, now))
  }

  /** All or nothing: a refused call leaves the tables as they were, although the tags of the parsed
      id are synchronised before the row of the raw text is looked up and its owner compared. */
  method UpdateTask(store: Database, ctx: Option<Creds>, text: IdText, data: TaskData, masks: seq<Mask>, now: int)
    returns (r: Result<(), Code>)
    requires Integrity(store.Contents())
    modifies store
    ensures r.Ok? ==>
      && ctx.Some? && ctx.value.typ == Access
      && Updated(old(store.Contents()), ctx.value.subject, text, data, Elements(masks), now) == Ok(store.Contents())
    ensures r.Err? ==> store.Contents() == old(store.Contents())
    ensures GetCreds(ctx, Access).Err? ==> r == Err(GetCreds(ctx, Access).error)
    ensures GetCreds(ctx, Access).Ok? && r.Err? ==>
      var want := Updated(old(store.Contents()), ctx.value.subject, text, data, Elements(masks), now);
      r.error == Internal || (want.Err? && r.error == want.error)
    ensures old(store.faults) == [] ==>
      && store.faults == []
      && (GetCreds(ctx, Access).Ok? ==>
            var want := Updated(old(store.Contents()), ctx.value.subject, text, data, Elements(masks), now);
            if want.Ok? then r.Ok? else r == Err(want.error))
    // What each code says, whatever the database does.
    ensures r == Err(NotFound) ==> text.Spelled? && (!text.canonical || text.id !in old(store.tasks))
    ensures r == Err(PermissionDenied) ==>
      && ctx.Some? && text.Spelled? && text.canonical && text.id in old(store.tasks)
      && old(store.tasks)[text.id].owner != ctx.value.subject
    ensures GetCreds(ctx, Access).Ok? && text.Malformed? ==> r == Err(Internal)
    ensures r.Ok? ==>
      && text.Spelled? && text.canonical && text.id in old(store.tasks)
      && old(store.tasks)[text.id].owner == ctx.value.subject
    ensures old(store.faults) == [] && r == Err(Internal) ==>
      text.Malformed? || (TAGS in masks && data.tags != [] && text.id !in old(store.tasks))
  {
    var creds := GetCreds(ctx, Access);
    if creds.Err? { return Err(creds.error); }
    if text.Malformed? { return Err(Internal); }
    var tx := store.Begin();
    if tx.Err? { return Err(Internal); }
    r := ApplyUpdate(store, creds.value.subject, text, data, masks, now);
    if r.Err? {
      store.Rollback(tx.value);
    }
  }

  method ApplyUpdate(store: Database, caller: Uuid, text: IdText, data: TaskData, requested: seq<Mask>, now: int)
    returns (r: Result<(), Code>)
    requires Integrity(store.Contents()) && text.Spelled?
    modifies store
    ensures r.Ok? ==>
      Updated(old(store.Contents()), caller, text, data, Elements(requested), now) == Ok(store.Contents())
    ensures r.Err? ==>
      var want := Updated(old(store.Contents()), caller, text, data, Elements(requested), now);
      r.error == Internal || (want.Err? && r.error == want.error)
    ensures old(store.faults) == [] ==>
      && store.faults == []
      && var want := Updated(old(store.Contents()), caller, text, data, Elements(requested), now);
        if want.Ok? then r.Ok? else r == Err(want.error)
  {
    ghost var start := store.Contents();
    var masks := RemoveDuplicate(requested);
    assert Elements(masks) == Elements(requested);
    var q := new Query();
    var built, stateChanged := BuildUpdate(store, text.id, data, masks, q);
    if built.Err? { return Err(built.error); }
    Tags.CreateTagsEffect(start, data.tags);
    r := FinishUpdate(store, caller, text, q, masks, data, stateChanged, now);
  }

  /** The loop over the masks: each adds its fragment to the query, except TAGS, which writes. */
  method BuildUpdate(store: Database, id: Uuid, data: TaskData, masks: seq<Mask>, q: Query)
    returns (r: Result<(), Code>, stateChanged: bool)
    requires Integrity(store.Contents()) && NoRepeats(masks) && q.slots == [] && q.args == []
    modifies store, q
    ensures r.Ok? ==>
      && q.slots == SlotsOf(masks) && q.args == ArgsOf(masks, data) && (stateChanged <==> STATE in masks)
      && store.Contents() ==
         (if TAGS in masks then Tags.Sync(old(store.Contents()), id, data.tags) else old(store.Contents()))
    ensures r.Err? ==> r.error == Internal
    ensures r.Ok? && TAGS in masks ==> data.tags == [] || id in old(store.tasks)
    ensures old(store.faults) == [] ==>
      store.faults == [] && (r.Err? <==> TAGS in masks && data.tags != [] && id !in old(store.tasks))
  {
    stateChanged := false;
    ghost var tagged := false;
    for i := 0 to |masks|
      invariant q.slots == SlotsOf(masks[..i]) && q.args == ArgsOf(masks[..i], data)
      invariant store.Contents() ==
        if tagged then Tags.Sync(old(store.Contents()), id, data.tags) else old(store.Contents())
      invariant tagged ==> data.tags == [] || id in old(store.tasks)
      invariant old(store.faults) == [] ==> store.faults == []
      invariant tagged <==> TAGS in masks[..i]
      invariant stateChanged <==> STATE in masks[..i]
    {
      assert masks[..i + 1][..i] == masks[..i];
      match masks[i]
      case TITLE => q.Concat([SetTitle], [Text(data.title)]);
      case DESC => q.Concat([SetDesc], [Text(data.desc)]);
      case PRIORITY => q.Concat([SetPriority], [Number(data.priority)]);
      case STATE =>
        q.Concat([SetState], [Number(data.state)]);
        stateChanged := true;
      case RECURRENCE => q.Concat([SetPattern, SetEnabled], [Text(data.pattern), Flag(data.active)]);
      case TAGS =>
        var synced := Tags.SyncTags(store, id, data.tags);
        if synced.Err? { return Err(synced.error), stateChanged; }
        tagged := true;
      case UNKNOWN(_) =>
    }
    assert masks[..|masks|] == masks;
    return Ok(()), stateChanged;
  }

  /** The code for a text that names no row of the caller. */
  function NotAddressed(db: Db, text: IdText, caller: Uuid): Option<Code> {
    if text.Malformed? || !text.canonical || text.id !in db.tasks then Some(NotFound)
    else if db.tasks[text.id].owner != caller then Some(PermissionDenied)
    else None
  }

  /** From the WHERE clause to the commit. */
  method FinishUpdate(store: Database, caller: Uuid, text: IdText, q: Query, ghost masks: seq<Mask>,
                      ghost data: TaskData, stateChanged: bool, now: int)
    returns (r: Result<(), Code>)
    requires text.Spelled? && q.slots == SlotsOf(masks) && q.args == ArgsOf(masks, data)
    modifies store, q
    ensures r.Ok? ==>
      && Addresses(old(store.Contents()), text, caller)
      && store.Contents() == Overlaid(old(store.Contents()), text.id, data, Elements(masks), now)
    ensures r.Err? ==> r.error == Internal || Some(r.error) == NotAddressed(old(store.Contents()), text, caller)
    ensures old(store.faults) == [] ==>
      && store.faults == []
      && var refused := NotAddressed(old(store.Contents()), text, caller);
        if refused.Some? then r == Err(refused.value) else r.Ok?
  {
    StatementMeaning(store.Contents(), masks, data, text, caller, now);
    q.Concat([WhereId, WhereOwner], [RequestId(text), Subject(caller)]);
    var sql := q.ToSql();
    if sql.Err? { return Err(Internal); }

    var existing := store.OwnerOfText(text);
    if existing.Err? { return Err(if existing.error == NoRows then NotFound else Internal); }
    if existing.value != caller { return Err(PermissionDenied); }
    r := ExecuteUpdate(store, sql.value.0, sql.value.1, stateChanged, now);
  }

  /** The statement itself, the recurrence hook and the commit; no row returned is an error. */
  method ExecuteUpdate(store: Database, slots: seq<Slot>, args: seq<Value>, stateChanged: bool, now: int)
    returns (r: Result<(), Code>)
    requires |slots| == |args|
    modifies store
    ensures r.Ok? ==> store.Contents() == Execute(old(store.Contents()), slots, args, now)
    ensures r.Err? ==> r.error == Internal
    ensures old(store.faults) == [] ==>
      store.faults == [] && (r.Ok? <==> Hits(old(store.Contents()), slots, args) != {})
  {
    var rows := store.ExecUpdate(slots, args, now);
    if rows.Err? || rows.value == {} { return Err(Internal); }
    var row :| row in rows.value;
    if row in store.tasks && store.tasks[row].recurring && stateChanged {
      RescheduleTask(row);
    }
    var done := store.Commit();
    if done.Err? { return Err(Internal); }
    return Ok(());
  }

  /** Recurrence is not implemented: the hook changes nothing and never fails. */
  method RescheduleTask(id: Uuid) {
  }

  /** After an update the owner can read the task if and only if the state it is left with fits a byte:
      the new one is stored as it was sent. A later update of the state can repair it. */
  lemma UpdatedReadable(db: Db, caller: Uuid, text: IdText, data: TaskData, masks: set<Mask>, now: int)
    requires Updated(db, caller, text, data, masks, now).Ok?
    ensures Readable(Updated(db, caller, text, data, masks, now).value, text.id, caller)
            <==> 0 <= (if STATE in masks then data.state else db.tasks[text.id].state) < 256
  {
    Tags.CreateTagsKeeps(db, data.tags);
  }

  /** One such input: the owner sets the state of a readable task to 256 and cannot read it any more. */
  lemma StateOutOfRange(db: Db, id: Uuid, data: TaskData, now: int)
    requires id in db.tasks && 0 <= db.tasks[id].state < 256 && data.state == 256
    ensures var owner := db.tasks[id].owner;
      var r := Updated(db, owner, Spelled(id, true), data, {STATE}, now);
      Readable(db, id, owner) && r.Ok? && !Readable(r.value, id, owner)
  {
    UpdatedReadable(db, db.tasks[id].owner, Spelled(id, true), data, {STATE}, now);
  }

  /** What a view shows once the masked fields were taken from a request: dates and creation time never
      change, and the tags are given apart. */
  function OverlaidView(view: TaskView, data: TaskData, masks: set<Mask>, tags: seq<string>, now: int): TaskView {
    view.(
      title := if TITLE in masks then data.title else view.title,
      desc := if DESC in masks then data.desc else view.desc,
      priority := if PRIORITY in masks then data.priority else view.priority,
      state := if STATE in masks then data.state else view.state,
      pattern := if RECURRENCE in masks then data.pattern else view.pattern,
      active := if RECURRENCE in masks then data.active else view.active,
      tags := tags, updated := now)
  }

  /** Read after update: the task shows what it showed before, overlaid by the masked fields, and as its
      tags the requested ones if they were masked and the old ones if not. */
  lemma UpdateRoundTrip(db: Db, caller: Uuid, text: IdText, data: TaskData, masks: set<Mask>, now: int,
                        before: TaskView, after: TaskView)
    requires Integrity(db) && Updated(db, caller, text, data, masks, now).Ok?
    requires Renders(db, text.id, before)
    requires Renders(Updated(db, caller, text, data, masks, now).value, text.id, after)
    ensures after == OverlaidView(before, data, masks, after.tags, now)
    ensures Elements(after.tags) == if TAGS in masks then Elements(data.tags) else Elements(before.tags)
  {
    var id := text.id;
    Tags.CreateTagsKeeps(db, data.tags);
    var tagged := if TAGS in masks then Tags.Sync(db, id, data.tags) else db;
    if TAGS in masks { Tags.SyncNames(db, id, data.tags); }
    OverlaidNames(tagged, id, data, masks, now);
  }

  lemma OverlaidNames(db: Db, id: Uuid, data: TaskData, masks: set<Mask>, now: int)
    requires id in db.tasks
    ensures NamesOf(Overlaid(db, id, data, masks, now), id) == NamesOf(db, id)
  {
  }

  // DeleteTask

  method DeleteTask(store: Database, ctx: Option<Creds>, text: IdText) returns (r: Result<(), Code>, cleanup: bool)
    modifies store
    ensures r.Ok? ==>
      && ctx.Some? && ctx.value.typ == Access && text.Spelled? && text.id in old(store.tasks)
      && old(store.tasks)[text.id].owner == ctx.value.subject
      && store.Contents() == RemoveTask(old(store.Contents()), text.id)
    ensures r.Err? ==> store.Contents() == old(store.Contents())
    ensures cleanup <==> r.Ok?
    ensures GetCreds(ctx, Access).Err? ==> r == Err(GetCreds(ctx, Access).error)
    ensures GetCreds(ctx, Access).Ok? && r.Err? ==> r.error == Internal || r.error == NotFound
    ensures old(store.faults) == [] ==>
      && store.faults == []
      && (GetCreds(ctx, Access).Ok? ==>
            if text.Malformed? then r == Err(Internal)
            else if text.id in old(store.tasks) && old(store.tasks)[text.id].owner == ctx.value.subject then r.Ok?
            else r == Err(NotFound))
  {
    cleanup := false;
    var creds := GetCreds(ctx, Access);
    if creds.Err? { return Err(creds.error), false; }
    if text.Malformed? { return Err(Internal), false; }
    var rowCount := store.DeleteUserTask(creds.value.subject, text.id);
    if rowCount.Err? { return Err(Internal), false; }
    if rowCount.value == 0 { return Err(NotFound), false; }
    return Ok(()), true;
  }

  /** Deleting a task removes its row and its links, and nothing else. */
  lemma RemoveTaskExactly(db: Db, id: Uuid)
    requires Integrity(db)
    ensures Integrity(RemoveTask(db, id))
    ensures RemoveTask(db, id) == db.(tasks := db.tasks - {id}, links := set l | l in db.links && l.0 != id)
  {
    var gone := RemoveTask(db, id);
    assert gone.links == set l | l in db.links && l.0 != id;
  }
}
