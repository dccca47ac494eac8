/** When unused tags are removed: the cleanup runs in the background, some time after the operation
    that asked for it, and nothing waits for it. */
module Housekeeping {
  import opened Basics
  import opened Tables
  import opened TaskUpdate
  import opened Runs
  import opened Credentials
  import Tags
  import Tasks
  import Accounts
  import Bootstrap

  // Nobody can tell whether a cleanup ran

  /** The tables a client sees, other than the tags. */
  ghost predicate SameRows(a: Db, b: Db) {
    && a.users == b.users && a.secrets == b.secrets && a.tasks == b.tasks
    && a.roles == b.roles && a.grants == b.grants && a.revoked == b.revoked
  }

  /** Everything a client can see: tag ids, and tags no task uses, are not part of it. */
  ghost predicate SameView(a: Db, b: Db) {
    && SameRows(a, b)
    && forall t :: NamesOf(a, t) == NamesOf(b, t)
  }

  /** The tables other than tags are untouched by tag synchronisation, and the names change as a
      function of the names before. */
  lemma SyncView(a: Db, b: Db, t: Uuid, names: seq<string>)
    requires Integrity(a) && Integrity(b) && SameView(a, b)
    ensures SameView(Tags.Sync(a, t, names), Tags.Sync(b, t, names))
  {
    Tags.CreateTagsKeeps(a, names);
    Tags.CreateTagsKeeps(b, names);
    forall u
      ensures NamesOf(Tags.Sync(a, t, names), u) == NamesOf(Tags.Sync(b, t, names), u)
    {
      if u == t {
        Tags.SyncNames(a, t, names);
        Tags.SyncNames(b, t, names);
      } else {
        Tags.SyncFrame(a, t, names, u);
        Tags.SyncFrame(b, t, names, u);
      }
    }
  }

  lemma InsertedView(a: Db, b: Db, id: Uuid, row: Task)
    requires Integrity(a) && Integrity(b) && SameView(a, b) && row.owner in a.users
    ensures var a', b' := a.(tasks := a.tasks[id := row]), b.(tasks := b.tasks[id := row]);
      Integrity(a') && Integrity(b') && SameView(a', b')
  {
    var a', b' := a.(tasks := a.tasks[id := row]), b.(tasks := b.tasks[id := row]);
    forall t
      ensures NamesOf(a', t) == NamesOf(b', t)
    {
      NamesFrame(a, a', t);
      NamesFrame(b, b', t);
      assert NamesOf(a, t) == NamesOf(b, t);
    }
  }

  lemma CreateView(a: Db, b: Db, op: Op)
    requires Integrity(a) && Integrity(b) && SameView(a, b) && op.Create?
    ensures SameView(Step(a, op), Step(b, op))
  {
    if Tasks.CanCreate(a, op.who, op.id) {
      var row := Tasks.RowOf(op.data, op.who, op.now);
      InsertedView(a, b, op.id, row);
      SyncView(a.(tasks := a.tasks[op.id := row]), b.(tasks := b.tasks[op.id := row]), op.id, op.data.tags);
    }
  }

  lemma OverlaidView(a: Db, b: Db, id: Uuid, data: TaskData, masks: set<Mask>, now: int)
    requires SameView(a, b) && id in a.tasks
    ensures SameView(Overlaid(a, id, data, masks, now), Overlaid(b, id, data, masks, now))
  {
    forall t
      ensures NamesOf(Overlaid(a, id, data, masks, now), t) == NamesOf(Overlaid(b, id, data, masks, now), t)
    {
      NamesFrame(a, Overlaid(a, id, data, masks, now), t);
      NamesFrame(b, Overlaid(b, id, data, masks, now), t);
      assert NamesOf(a, t) == NamesOf(b, t);
    }
  }

  lemma UpdateView(a: Db, b: Db, op: Op)
    requires Integrity(a) && Integrity(b) && SameView(a, b) && op.Update?
    ensures SameView(Step(a, op), Step(b, op))
  {
    if Tasks.Updated(a, op.who, op.text, op.data, op.masks, op.now).Ok? {
      var a', b' := a, b;
      Tags.CreateTagsKeeps(a, op.data.tags);
      Tags.CreateTagsKeeps(b, op.data.tags);
      if TAGS in op.masks {
        SyncView(a, b, op.text.id, op.data.tags);
        a', b' := Tags.Sync(a, op.text.id, op.data.tags), Tags.Sync(b, op.text.id, op.data.tags);
      }
      OverlaidView(a', b', op.text.id, op.data, op.masks, op.now);
    }
  }

  /** Dropping the links of some tasks leaves the names of the others. */
  lemma NamesLeft(db: Db, after: Db, gone: set<Uuid>, t: Uuid)
    requires after.tags == db.tags && after.links == set l | l in db.links && l.0 !in gone
    ensures NamesOf(after, t) == if t in gone then {} else NamesOf(db, t)
  {
    if t !in gone { NamesFrame(db, after, t); }
  }

  lemma DeleteNames(db: Db, op: Op, t: Uuid)
    requires Integrity(db) && op.Delete?
    ensures NamesOf(Step(db, op), t) == if t in Step(db, op).tasks then NamesOf(db, t) else {}
  {
    if Spawns(db, op) {
      Tasks.RemoveTaskExactly(db, op.id);
      NamesLeft(db, Step(db, op), {op.id}, t);
    }
  }

  lemma LeaveNames(db: Db, op: Op, t: Uuid)
    requires Integrity(db) && op.Leave?
    ensures NamesOf(Step(db, op), t) == if t in Step(db, op).tasks then NamesOf(db, t) else {}
  {
    Accounts.CascadeMeans(db, op.id);
    var own := TasksOf(db, op.id).Keys;
    assert Step(db, op).links == set l | l in db.links && l.0 !in own;
    NamesLeft(db, Step(db, op), own, t);
  }

  lemma RemovalRows(a: Db, b: Db, op: Op)
    requires SameRows(a, b) && Integrity(a) && Integrity(b) && (op.Delete? || op.Leave?)
    ensures SameRows(Step(a, op), Step(b, op))
  {
    if op.Leave? {
      Accounts.CascadeMeans(a, op.id);
      Accounts.CascadeMeans(b, op.id);
    }
  }

  lemma GrantRows(a: Db, b: Db, email: string)
    requires SameRows(a, b)
    ensures SameRows(GrantByEmail(a, email, ADMIN), GrantByEmail(b, email, ADMIN))
  {
  }

  lemma EnsureRows(a: Db, b: Db, id: Uuid, secret: Secret, now: int)
    requires SameRows(a, b)
    ensures SameRows(Bootstrap.AdminEnsured(a, id, secret, now), Bootstrap.AdminEnsured(b, id, secret, now))
    ensures Bootstrap.NeedsUser(a) == Bootstrap.NeedsUser(b)
  {
    var a', b' := a.(roles := a.roles + {ADMIN}), b.(roles := b.roles + {ADMIN});
    assert HasRole(a', ADMIN) == HasRole(b', ADMIN);
    assert EmailTaken(a', Bootstrap.ADMIN_EMAIL) == EmailTaken(b', Bootstrap.ADMIN_EMAIL);
    GrantRows(a', b', Bootstrap.ADMIN_EMAIL);
    var req := Bootstrap.Request("");
    GrantRows(Accounts.WithUser(a', id, req, secret, now), Accounts.WithUser(b', id, req, secret, now),
              Bootstrap.ADMIN_EMAIL);
  }

  lemma RekeyRows(a: Db, b: Db, id: Uuid, secret: Secret, now: int)
    requires SameRows(a, b)
    ensures SameRows(Accounts.Rekeyed(a, id, secret, now), Accounts.Rekeyed(b, id, secret, now))
  {
  }

  lemma NewcomerRows(a: Db, b: Db, op: Op)
    requires SameRows(a, b) && (op.Enrol? || op.Rename?)
    ensures SameRows(Step(a, op), Step(b, op))
  {
    if op.Enrol? {
      assert EmailTaken(a, op.req.email) == EmailTaken(b, op.req.email);
    } else {
      assert Accounts.EmailTakenByOther(a, op.id, op.email) == Accounts.EmailTakenByOther(b, op.id, op.email);
    }
  }

  lemma ElsewhereRows(a: Db, b: Db, op: Op)
    requires SameRows(a, b)
    requires op.Enrol? || op.Rename? || op.Rekey? || op.Ensure? || op.Revoke? || op.Prune?
    ensures SameRows(Step(a, op), Step(b, op))
  {
    match op
    case Ensure(id, secret, now) => EnsureRows(a, b, id, secret, now);
    case Rekey(id, secret, now) => RekeyRows(a, b, id, secret, now);
    case Enrol(_, _, _, _) => NewcomerRows(a, b, op);
    case Rename(_, _, _, _) => NewcomerRows(a, b, op);
    case _ =>
  }

  lemma RemovalView(a: Db, b: Db, op: Op)
    requires Integrity(a) && Integrity(b) && SameView(a, b) && (op.Delete? || op.Leave?)
    ensures SameView(Step(a, op), Step(b, op))
  {
    forall t
      ensures NamesOf(Step(a, op), t) == NamesOf(Step(b, op), t)
    {
      if op.Delete? {
        DeleteNames(a, op, t);
        DeleteNames(b, op, t);
      } else {
        LeaveNames(a, op, t);
        LeaveNames(b, op, t);
      }
      RemovalRows(a, b, op);
      assert NamesOf(a, t) == NamesOf(b, t);
    }
    RemovalRows(a, b, op);
  }

  lemma SameNames(a: Db, b: Db, a': Db, b': Db)
    requires forall t :: NamesOf(a, t) == NamesOf(b, t)
    requires a'.tags == a.tags && a'.links == a.links && b'.tags == b.tags && b'.links == b.links
    ensures forall t :: NamesOf(a', t) == NamesOf(b', t)
  {
    forall t
      ensures NamesOf(a', t) == NamesOf(b', t)
    {
      NamesFrame(a, a', t);
      NamesFrame(b, b', t);
      assert NamesOf(a, t) == NamesOf(b, t);
    }
  }

  lemma ElsewhereView(a: Db, b: Db, op: Op)
    requires SameView(a, b)
    requires op.Enrol? || op.Rename? || op.Rekey? || op.Ensure? || op.Revoke? || op.Prune?
    ensures SameView(Step(a, op), Step(b, op))
  {
    ElsewhereRows(a, b, op);
    ElsewhereStep(a, op);
    ElsewhereStep(b, op);
    SameNames(a, b, Step(a, op), Step(b, op));
  }

  lemma StepView(a: Db, b: Db, op: Op)
    requires Integrity(a) && Integrity(b) && SameView(a, b) && !op.Clean?
    ensures SameView(Step(a, op), Step(b, op))
  {
    match op
    case Create(_, _, _, _) => CreateView(a, b, op);
    case Update(_, _, _, _, _) => UpdateView(a, b, op);
    case Delete(_, _) => RemovalView(a, b, op);
    case Leave(_) => RemovalView(a, b, op);
    case _ => ElsewhereView(a, b, op);
  }

  function WithoutCleaning(ops: seq<Op>): seq<Op> {
    if ops == [] then []
    else if ops[0].Clean? then WithoutCleaning(ops[1..])
    else [ops[0]] + WithoutCleaning(ops[1..])
  }

  /** Wherever cleanups fall between the transactions of a run, or if none ever happens, clients see
      the same tasks with the same tag names. */
  lemma {:induction false} CleaningIsInvisible(a: Db, b: Db, ops: seq<Op>)
    requires Integrity(a) && Integrity(b) && SameView(a, b)
    ensures SameView(Run(a, ops), Run(b, WithoutCleaning(ops)))
    decreases |ops|
  {
    if ops != [] {
      StepIntegrity(a, ops[0]);
      if ops[0].Clean? {
        Tags.CleanTagsEffect(a);
        CleaningIsInvisible(Step(a, ops[0]), b, ops[1..]);
      } else {
        StepIntegrity(b, ops[0]);
        StepView(a, b, ops[0]);
        CleaningIsInvisible(Step(a, ops[0]), Step(b, ops[0]), ops[1..]);
        assert ([ops[0]] + WithoutCleaning(ops[1..]))[1..] == WithoutCleaning(ops[1..]);
      }
    }
  }

  // Where unused tags can come from

  /** The tables, the cleanups spawned and not yet run, and what has happened since the last one that
      succeeded: one failed, some died with the process, tags were taken off or a user deleted. */
  datatype House = House(db: Db, pending: nat, failed: bool, lost: bool, changed: bool)

  datatype Event = Commit(op: Op) | CleanRuns | CleanFails | Crash

  predicate Possible(h: House, e: Event) {
    match e
    case Commit(op) => !op.Clean?
    case CleanRuns => h.pending > 0
    case CleanFails => h.pending > 0
    case Crash => true
  }

  /** Does this operation spawn a cleanup once it has committed? */
  predicate Spawns(db: Db, op: Op) {
    match op
    case Create(who, id, _, _) => Tasks.CanCreate(db, who, id)
    case Delete(who, id) => id in db.tasks && db.tasks[id].owner == who
    case _ => false
  }

  function Next(h: House, e: Event): House
    requires Possible(h, e)
  {
    match e
    case Commit(op) =>
      House(Step(h.db, op), if Spawns(h.db, op) then h.pending + 1 else h.pending, h.failed, h.lost,
            h.changed || op.Leave? || Taken(h.db, op) != {})
    case CleanRuns => House(CleanTags(h.db), h.pending - 1, false, false, false)
    case CleanFails => h.(pending := h.pending - 1, failed := true)
    case Crash => h.(pending := 0, lost := h.lost || h.pending > 0)
  }

  ghost predicate Explained(h: House) {
    Integrity(h.db) && (Orphans(h.db) != {} ==> h.pending > 0 || h.failed || h.lost || h.changed)
  }

  lemma SameTagsSameOrphans(a: Db, b: Db)
    requires a.tags == b.tags && a.links == b.links
    ensures Orphans(a) == Orphans(b)
  {
  }

  lemma UpdateOrphans(db: Db, op: Op)
    requires Integrity(db) && op.Update? && Taken(db, op) == {}
    ensures Orphans(Step(db, op)) <= Orphans(db)
  {
    if Tasks.Updated(db, op.who, op.text, op.data, op.masks, op.now).Ok? {
      Tags.CreateTagsKeeps(db, op.data.tags);
      if TAGS in op.masks {
        var t, names := op.text.id, op.data.tags;
        Tags.SyncOrphans(db, t, names);
        assert Taken(db, op) == NamesOf(db, t) - Elements(names);
        forall g | g in Linked(db, t)
          ensures db.tags[g] in names
        {
          assert (t, g) in db.links;
          assert db.tags[g] in NamesOf(db, t) - Elements(names) || db.tags[g] in names;
        }
        SameTagsSameOrphans(Tags.Sync(db, t, names), Step(db, op));
      } else {
        SameTagsSameOrphans(db, Step(db, op));
      }
    }
  }

  lemma ElsewhereOrphans(db: Db, op: Op)
    requires op.Enrol? || op.Rename? || op.Rekey? || op.Ensure? || op.Revoke? || op.Prune?
    ensures Orphans(Step(db, op)) == Orphans(db)
  {
    ElsewhereStep(db, op);
    SameTagsSameOrphans(db, Step(db, op));
  }

  lemma NextExplained(h: House, e: Event)
    requires Explained(h) && Possible(h, e)
    ensures Explained(Next(h, e))
  {
    match e
    case Commit(op) =>
      StepIntegrity(h.db, op);
      if op.Update? && Taken(h.db, op) == {} {
        UpdateOrphans(h.db, op);
      } else if op.Enrol? || op.Rename? || op.Rekey? || op.Ensure? || op.Revoke? || op.Prune? {
        ElsewhereOrphans(h.db, op);
      }
    case CleanRuns => Tags.CleanTagsEffect(h.db);
    case CleanFails =>
    case Crash =>
  }

  predicate PossibleRun(h: House, events: seq<Event>)
    decreases |events|
  {
    events == [] || (Possible(h, events[0]) && PossibleRun(Next(h, events[0]), events[1..]))
  }

  function After(h: House, events: seq<Event>): House
    requires PossibleRun(h, events)
    decreases |events|
  {
    if events == [] then h else After(Next(h, events[0]), events[1..])
  }

  lemma {:induction false} RunExplained(h: House, events: seq<Event>)
    requires Explained(h) && PossibleRun(h, events)
    ensures Explained(After(h, events))
    decreases |events|
  {
    if events != [] {
      NextExplained(h, events[0]);
      RunExplained(Next(h, events[0]), events[1..]);
    }
  }

  datatype Cause = CleanupFailed | CleanupLost | TagsFreed

  /** Is this event of that kind: a cleanup that fails, a crash that takes cleanups with it, an update
      that takes tags off a task or the deletion of a user? */
  predicate Is(cause: Cause, h: House, e: Event) {
    match cause
    case CleanupFailed => e == CleanFails
    case CleanupLost => e == Crash && h.pending > 0
    case TagsFreed => e.Commit? && (e.op.Leave? || Taken(h.db, e.op) != {})
  }

  /** There was such an event, and no cleanup has succeeded since. */
  predicate Since(h: House, events: seq<Event>, cause: Cause)
    requires PossibleRun(h, events)
    decreases |events|
  {
    && events != []
    && ((Is(cause, h, events[0]) && CleanRuns !in events[1..]) || Since(Next(h, events[0]), events[1..], cause))
  }

  lemma {:induction false} FlagsTell(h: House, events: seq<Event>)
    requires PossibleRun(h, events)
    ensures var after, still := After(h, events), CleanRuns !in events;
      && (after.failed <==> Since(h, events, CleanupFailed) || (h.failed && still))
      && (after.lost <==> Since(h, events, CleanupLost) || (h.lost && still))
      && (after.changed <==> Since(h, events, TagsFreed) || (h.changed && still))
    decreases |events|
  {
    if events != [] {
      FlagsTell(Next(h, events[0]), events[1..]);
      assert CleanRuns in events <==> events[0] == CleanRuns || CleanRuns in events[1..];
    }
  }

  /** A service that has just come up on `db`. */
  function Fresh(db: Db): House {
    House(db, 0, false, false, false)
  }

  /** In every run that starts without unused tags, one exists only while a cleanup is pending, or if
      since the last success a cleanup failed or was lost, or an update took tags off a task, or a user
      was deleted. */
  lemma OrphansExplained(db: Db, events: seq<Event>)
    requires Integrity(db) && Orphans(db) == {} && PossibleRun(Fresh(db), events)
    ensures var h, after := Fresh(db), After(Fresh(db), events);
      Orphans(after.db) != {} ==>
        after.pending > 0 || exists cause :: Since(h, events, cause)
  {
    RunExplained(Fresh(db), events);
    FlagsTell(Fresh(db), events);
    var h := Fresh(db);
    assert Since(h, events, CleanupFailed) || Since(h, events, CleanupLost) || Since(h, events, TagsFreed) ==>
      exists cause :: Since(h, events, cause);
  }

  // What becomes of the cleanups

  /** How many cleanups a run spawns, how many of them end, and how many die with the process. */
  function Spawned(h: House, events: seq<Event>): nat
    requires PossibleRun(h, events)
    decreases |events|
  {
    if events == [] then 0
    else (if events[0].Commit? && Spawns(h.db, events[0].op) then 1 else 0) + Spawned(Next(h, events[0]), events[1..])
  }

  function Ended(events: seq<Event>): nat {
    if events == [] then 0 else (if events[0] in {CleanRuns, CleanFails} then 1 else 0) + Ended(events[1..])
  }

  function Died(h: House, events: seq<Event>): nat
    requires PossibleRun(h, events)
    decreases |events|
  {
    if events == [] then 0
    else (if events[0] == Crash then h.pending else 0) + Died(Next(h, events[0]), events[1..])
  }

  /** Every cleanup that was spawned ends once, with or without success, dies with the process, or is
      still pending. */
  lemma {:induction false} CleanupsConserved(h: House, events: seq<Event>)
    requires PossibleRun(h, events)
    ensures h.pending + Spawned(h, events) == After(h, events).pending + Ended(events) + Died(h, events)
    decreases |events|
  {
    if events != [] { CleanupsConserved(Next(h, events[0]), events[1..]); }
  }
}
