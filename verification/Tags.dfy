/** Tag reconciliation: `syncTags` and `cleanTags`. `Sync` is what one successful call leaves in
    the tables; the lemmas say what that means for every task. */
module Tags {
  import opened Basics
  import opened Tables
  import opened Store

  /** Insert every name that has no row yet, in list order. */
  function CreateTags(db: Db, names: seq<string>): Db
    decreases |names|
  {
    if names == [] then db
    else CreateTags(if NameTaken(db, names[0]) then db else InsertTag(db, names[0]), names[1..])
  }

  /** Ids of the rows named in the request. */
  function Wanted(db: Db, names: seq<string>): set<TagId> {
    set g | g in db.tags && db.tags[g] in names
  }

  function Link(db: Db, t: Uuid, ids: set<TagId>): Db {
    db.(links := db.links + set g | g in ids :: (t, g))
  }

  function Sync(db: Db, t: Uuid, names: seq<string>): Db {
    var created := CreateTags(db, names);
    var wanted := Wanted(created, names);
    Unassign(Link(created, t, wanted), Linked(created, t) - wanted)
  }

  // What creating tags changes

  lemma {:induction false} CreateTagsKeeps(db: Db, names: seq<string>)
    ensures CreateTags(db, names) == db.(tags := CreateTags(db, names).tags, tagSeq := CreateTags(db, names).tagSeq)
    decreases |names|
  {
    if names != [] {
      CreateTagsKeeps(if NameTaken(db, names[0]) then db else InsertTag(db, names[0]), names[1..]);
    }
  }

  ghost predicate TagTable(db: Db) {
    (forall g :: g in db.tags ==> 1 <= g <= db.tagSeq) && UniqueNames(db.tags)
  }

  /** The tags table only grows, and only by requested names. */
  lemma {:induction false} CreateTagsGrows(db: Db, names: seq<string>)
    requires TagTable(db)
    ensures var done := CreateTags(db, names);
      && TagTable(done)
      && (forall g :: g in db.tags ==> g in done.tags && done.tags[g] == db.tags[g])
      && (forall g :: g in done.tags && g !in db.tags ==> done.tags[g] in names)
    decreases |names|
  {
    if names != [] {
      CreateTagsGrows(if NameTaken(db, names[0]) then db else InsertTag(db, names[0]), names[1..]);
    }
  }

  lemma {:induction false} CreateTagsCovers(db: Db, names: seq<string>, name: string)
    requires TagTable(db) && name in names
    ensures NameTaken(CreateTags(db, names), name)
    decreases |names|
  {
    var next := if NameTaken(db, names[0]) then db else InsertTag(db, names[0]);
    if name == names[0] {
      assert next != db ==> next.tags[db.tagSeq + 1] == name;
      var g :| g in next.tags && next.tags[g] == name;
      CreateTagsGrows(next, names[1..]);
      assert g in CreateTags(next, names[1..]).tags;
    } else {
      CreateTagsCovers(next, names[1..], name);
    }
  }

  lemma CreateTagsEffect(db: Db, names: seq<string>)
    requires Integrity(db)
    ensures var done := CreateTags(db, names);
      && Integrity(done)
      && done == db.(tags := done.tags, tagSeq := done.tagSeq)
      && (forall g :: g in db.tags ==> g in done.tags && done.tags[g] == db.tags[g])
      && (forall g :: g in done.tags && g !in db.tags ==> done.tags[g] in names)
      && (forall name :: name in names ==> NameTaken(done, name))
  {
    CreateTagsKeeps(db, names);
    CreateTagsGrows(db, names);
    forall name | name in names
      ensures NameTaken(CreateTags(db, names), name)
    {
      CreateTagsCovers(db, names, name);
    }
  }

  /** Row by row: a link survives unless its tag was on `t` and is not requested any more, and the
      requested tags are now on `t`. */
  lemma SyncLinks(db: Db, t: Uuid, names: seq<string>)
    requires Integrity(db)
    ensures forall l :: l in Sync(db, t, names).links <==>
      || (l in db.links && !((t, l.1) in db.links && db.tags[l.1] !in names))
      || (l.0 == t && l.1 in Sync(db, t, names).tags && Sync(db, t, names).tags[l.1] in names)
  {
    CreateTagsEffect(db, names);
  }

  lemma SyncIntegrity(db: Db, t: Uuid, names: seq<string>)
    requires Integrity(db) && (t in db.tasks || names == [])
    ensures Integrity(Sync(db, t, names))
  {
    CreateTagsEffect(db, names);
  }

  /** After a successful call the task carries exactly the requested names, whatever the list:
      empty, repeated, or mixing new and existing names. */
  lemma SyncNames(db: Db, t: Uuid, names: seq<string>)
    requires Integrity(db)
    ensures NamesOf(Sync(db, t, names), t) == Elements(names)
  {
    CreateTagsEffect(db, names);
    SyncLinks(db, t, names);
    var done := Sync(db, t, names);
    forall name | name in names
      ensures name in NamesOf(done, t)
    {
      var g :| g in done.tags && done.tags[g] == name;
      assert (t, g) in done.links;
    }
  }

  /** Another task loses exactly the names that this call removed from `t`. */
  lemma SyncFrame(db: Db, t: Uuid, names: seq<string>, u: Uuid)
    requires Integrity(db) && u != t
    ensures NamesOf(Sync(db, t, names), u) == NamesOf(db, u) - (NamesOf(db, t) - Elements(names))
  {
    CreateTagsEffect(db, names);
    SyncLinks(db, t, names);
    var done := Sync(db, t, names);
    forall name | name in NamesOf(db, u) - (NamesOf(db, t) - Elements(names))
      ensures name in NamesOf(done, u)
    {
      var l :| l in db.links && l.0 == u && l.1 in db.tags && db.tags[l.1] == name;
      if (t, l.1) in db.links { assert name in NamesOf(db, t); }
      assert l in done.links;
    }
    forall name | name in NamesOf(done, u)
      ensures name in NamesOf(db, u) - (NamesOf(db, t) - Elements(names))
    {
      var l :| l in done.links && l.0 == u && l.1 in done.tags && done.tags[l.1] == name;
      assert l in db.links;
    }
  }

  /** No other task notices the call if and only if no removed name was shared. */
  lemma SyncIsLocal(db: Db, t: Uuid, names: seq<string>)
    requires Integrity(db)
    ensures (forall u :: u != t ==> NamesOf(Sync(db, t, names), u) == NamesOf(db, u))
            <==> (forall u :: u != t ==> NamesOf(db, u) !! NamesOf(db, t) - Elements(names))
  {
    forall u | u != t
      ensures NamesOf(Sync(db, t, names), u) == NamesOf(db, u)
              <==> NamesOf(db, u) !! NamesOf(db, t) - Elements(names)
    {
      SyncFrame(db, t, names, u);
    }
  }

  /** Every tag the call takes off `t` is left unused by all tasks, until the next cleanup. */
  lemma SyncOrphans(db: Db, t: Uuid, names: seq<string>)
    requires Integrity(db)
    ensures Orphans(Sync(db, t, names)) ==
            Orphans(db) - Wanted(db, names) + set g | g in Linked(db, t) && db.tags[g] !in names
  {
    CreateTagsEffect(db, names);
    SyncLinks(db, t, names);
    var done := Sync(db, t, names);
    forall g | g in done.tags
      ensures g in Orphans(done) <==>
        (g in Orphans(db) && g !in Wanted(db, names)) || (g in Linked(db, t) && db.tags[g] !in names)
    {
      if g in db.tags && db.tags[g] !in names {
        if exists l :: l in done.links && l.1 == g {
          var l :| l in done.links && l.1 == g;
          assert l in db.links;
        }
        if l :| l in db.links && l.1 == g {
          assert l in done.links || (t, g) in db.links;
        }
      } else {
        assert (t, g) in done.links;
      }
    }
  }

  lemma {:induction false} NothingToCreate(db: Db, names: seq<string>)
    requires forall name :: name in names ==> NameTaken(db, name)
    ensures CreateTags(db, names) == db
    decreases |names|
  {
    if names != [] { NothingToCreate(db, names[1..]); }
  }

  /** Has `t` exactly the requested tags already? */
  predicate InSync(db: Db, t: Uuid, names: seq<string>) {
    (forall name :: name in names ==> NameTaken(db, name)) && Linked(db, t) == Wanted(db, names)
  }

  /** A second identical call finds nothing to do. */
  lemma SyncSettles(db: Db, t: Uuid, names: seq<string>)
    requires Integrity(db)
    ensures InSync(Sync(db, t, names), t, names)
    ensures InSync(db, t, names) ==> Sync(db, t, names) == db
  {
    CreateTagsEffect(db, names);
    SyncLinks(db, t, names);
    if InSync(db, t, names) {
      NothingToCreate(db, names);
      assert Sync(db, t, names).links == db.links;
    }
    var done := Sync(db, t, names);
    forall name | name in names
      ensures NameTaken(done, name)
    {
      var g :| g in CreateTags(db, names).tags && CreateTags(db, names).tags[g] == name;
      assert g in done.tags;
    }
    forall g | g in Wanted(done, names)
      ensures g in Linked(done, t)
    {
      assert (t, g) in done.links;
    }
  }

  /** Cleaning never changes what any task shows, and leaves no orphan. */
  lemma CleanTagsEffect(db: Db)
    requires Integrity(db)
    ensures Integrity(CleanTags(db))
    ensures CleanTags(db) == db.(tags := CleanTags(db).tags)
    ensures Orphans(CleanTags(db)) == {}
    ensures forall u :: NamesOf(CleanTags(db), u) == NamesOf(db, u)
  {
    var done := CleanTags(db);
    assert forall l :: l in db.links ==> l.1 in done.tags && done.tags[l.1] == db.tags[l.1];
    assert done.links == db.links;
    forall u
      ensures NamesOf(done, u) == NamesOf(db, u)
    {
      assert forall name :: name in NamesOf(db, u) <==> name in NamesOf(done, u);
    }
  }

  /** `rows` holds the rows of `tags` whose name is requested, and no other. */
  ghost predicate Existing(rows: seq<Tag>, tags: map<TagId, string>, names: seq<string>) {
    forall tag :: tag in rows <==> tag.id in tags && tags[tag.id] == tag.name && tag.name in names
  }

  /** `rows` holds the rows of the tags linked to `t`, and no other. */
  ghost predicate OnTask(rows: seq<Tag>, db: Db, t: Uuid) {
    forall tag :: tag in rows <==> tag.id in db.tags && db.tags[tag.id] == tag.name && (t, tag.id) in db.links
  }

  /** One turn of the first loop: the search in `existingTags` decides whether the name has a row,
      and if it has none the new row keeps both the list and the constraints. */
  lemma ExistingStep(rows: seq<Tag>, db: Db, names: seq<string>, name: string)
    requires Integrity(db) && Existing(rows, db.tags, names) && name in names
    ensures (exists tag :: tag in rows && tag.name == name) <==> NameTaken(db, name)
    ensures !NameTaken(db, name) ==>
      && Integrity(InsertTag(db, name))
      && Existing(rows + [Tag(db.tagSeq + 1, name)], InsertTag(db, name).tags, names)
  {
    if g :| g in db.tags && db.tags[g] == name {
      assert Tag(g, name) in rows;
    } else {
      var more, next := rows + [Tag(db.tagSeq + 1, name)], InsertTag(db, name);
      forall tag
        ensures tag in more <==> tag.id in next.tags && next.tags[tag.id] == tag.name && tag.name in names
      {
        assert tag in more <==> tag in rows || tag == Tag(db.tagSeq + 1, name);
      }
    }
  }

  /** First loop of `syncTags`: grow `existingTags` with a new row per missing name. */
  method CreateMissing(store: Database, rows: seq<Tag>, names: seq<string>) returns (r: Result<seq<Tag>, Code>)
    requires Integrity(store.Contents()) && Existing(rows, store.tags, names)
    modifies store
    ensures r.Err? ==> r.error == Internal
    ensures r.Ok? ==>
      store.Contents() == CreateTags(old(store.Contents()), names) && Existing(r.value, store.tags, names)
    ensures old(store.faults) == [] ==> store.faults == [] && r.Ok?
    ensures r.Ok? && (forall name :: name in names ==> NameTaken(old(store.Contents()), name)) ==>
      store.faults == old(store.faults)
  {
    var existing := rows;
    for i := 0 to |names|
      invariant CreateTags(store.Contents(), names[i..]) == CreateTags(old(store.Contents()), names)
      invariant Integrity(store.Contents())
      invariant Existing(existing, store.tags, names)
      invariant old(store.faults) == [] ==> store.faults == []
      invariant (forall name :: name in names ==> NameTaken(old(store.Contents()), name)) ==>
        store.Contents() == old(store.Contents()) && store.faults == old(store.faults)
    {
      assert names[i..][0] == names[i] && names[i..][1..] == names[i + 1..];
      ExistingStep(existing, store.Contents(), names, names[i]);
      if !exists tag :: tag in existing && tag.name == names[i] {
        var made := store.NewTag(names[i]);
        if made.Err? { return Err(Internal); }
        existing := existing + [made.value];
      }
    }
    return Ok(existing);
  }

  function Ids(rows: seq<Tag>): set<TagId> {
    set tag | tag in rows :: tag.id
  }

  lemma ExistingIds(rows: seq<Tag>, db: Db, names: seq<string>)
    requires Existing(rows, db.tags, names)
    ensures Ids(rows) == Wanted(db, names)
  {
    forall g | g in Wanted(db, names)
      ensures g in Ids(rows)
    {
      assert Tag(g, db.tags[g]) in rows;
    }
  }

  /** One turn of the second loop: the search in `linkedTags` decides whether the pair has a row. */
  lemma LinkStep(rows: seq<Tag>, db: Db, t: Uuid, tag: Tag)
    requires OnTask(rows, db, t) && tag.id in db.tags && db.tags[tag.id] == tag.name
    ensures (exists row :: row in rows && row.id == tag.id) <==> (t, tag.id) in db.links
    ensures OnTask(rows + [tag], db.(links := db.links + {(t, tag.id)}), t)
  {
    assert tag in rows <==> (t, tag.id) in db.links;
    var more, next := rows + [tag], db.(links := db.links + {(t, tag.id)});
    forall row
      ensures row in more <==>
        row.id in next.tags && next.tags[row.id] == row.name && (t, row.id) in next.links
    {
      assert row in more <==> row in rows || row == tag;
    }
  }

  lemma LinkMore(db: Db, t: Uuid, rows: seq<Tag>, i: nat)
    requires i < |rows|
    ensures Link(db, t, Ids(rows[..i + 1])).links == Link(db, t, Ids(rows[..i])).links + {(t, rows[i].id)}
  {
    assert rows[..i + 1] == rows[..i] + [rows[i]];
    assert Ids(rows[..i + 1]) == Ids(rows[..i]) + {rows[i].id};
  }

  /** Second loop: assign every requested tag that is not on the task yet. */
  method LinkMissing(store: Database, t: Uuid, existing: seq<Tag>, rows: seq<Tag>) returns (r: Result<seq<Tag>, Code>)
    requires forall tag :: tag in existing ==> tag.id in store.tags && store.tags[tag.id] == tag.name
    requires OnTask(rows, store.Contents(), t) && (t !in store.tasks ==> Linked(store.Contents(), t) == {})
    modifies store
    ensures r.Err? ==> r.error == Internal
    ensures r.Ok? ==> store.Contents() == Link(old(store.Contents()), t, Ids(existing))
    ensures r.Ok? ==> OnTask(r.value, store.Contents(), t) && (existing == [] || t in store.tasks)
    ensures old(store.faults) == [] ==> store.faults == [] && (r.Ok? <==> existing == [] || t in old(store.tasks))
    ensures r.Ok? && Ids(existing) <= Linked(old(store.Contents()), t) ==> store.faults == old(store.faults)
  {
    var linked := rows;
    assert Link(store.Contents(), t, Ids(existing[..0])).links == store.links;
    for i := 0 to |existing|
      invariant store.Contents() == Link(old(store.Contents()), t, Ids(existing[..i]))
      invariant OnTask(linked, store.Contents(), t)
      invariant i > 0 ==> t in store.tasks
      invariant old(store.faults) == [] ==> store.faults == []
      invariant Ids(existing) <= Linked(old(store.Contents()), t) ==> store.faults == old(store.faults)
    {
      var tag := existing[i];
      assert tag in existing;
      LinkStep(linked, store.Contents(), t, tag);
      LinkMore(old(store.Contents()), t, existing, i);
      if !exists row :: row in linked && row.id == tag.id {
        assert tag.id in Ids(existing) && tag.id !in Linked(old(store.Contents()), t);
        var done := store.AssignTag(t, tag.id);
        if done.Err? { return Err(Internal); }
        linked := linked + [tag];
      } else {
        assert store.links == store.links + {(t, tag.id)};
        assert tag.id in Linked(store.Contents(), t);
      }
    }
    assert existing[..|existing|] == existing;
    return Ok(linked);
  }

  /** Third loop: ids of the tags on the task that are not requested. */
  method StaleTags(linked: seq<Tag>, existing: seq<Tag>) returns (ids: seq<TagId>)
    ensures forall g :: g in ids <==>
      (exists tag :: tag in linked && tag.id == g) && !exists tag :: tag in existing && tag.id == g
  {
    ids := [];
    for i := 0 to |linked|
      invariant forall g :: g in ids <==>
        (exists tag :: tag in linked[..i] && tag.id == g) && !exists tag :: tag in existing && tag.id == g
    {
      if !exists tag :: tag in existing && tag.id == linked[i].id {
        ids := ids + [linked[i].id];
      }
    }
    assert linked[..|linked|] == linked;
  }

  /** What the first loop hands to the second. */
  lemma AfterCreating(start: Db, t: Uuid, names: seq<string>, existing: seq<Tag>)
    requires Integrity(start) && Existing(existing, CreateTags(start, names).tags, names)
    ensures var created := CreateTags(start, names);
      && Ids(existing) == Wanted(created, names)
      && (forall tag :: tag in existing ==> tag.id in created.tags && created.tags[tag.id] == tag.name)
      && created.links == start.links && created.tasks == start.tasks
      && (t !in start.tasks ==> Linked(created, t) == {})
      && (existing == [] <==> names == [])
      && (InSync(start, t, names) ==> created == start)
  {
    var created := CreateTags(start, names);
    CreateTagsEffect(start, names);
    ExistingIds(existing, created, names);
    if InSync(start, t, names) { NothingToCreate(start, names); }
    if names != [] {
      assert NameTaken(created, names[0]);
      var g :| g in created.tags && created.tags[g] == names[0];
      assert Tag(g, names[0]) in existing;
    }
    assert existing != [] ==> existing[0] in existing;
  }

  /** What the third loop hands to `UnassignTags`. */
  lemma StaleExactly(db: Db, t: Uuid, wanted: set<TagId>, linked: seq<Tag>, existing: seq<Tag>, ids: seq<TagId>)
    requires Integrity(db) && Ids(existing) == wanted && wanted <= db.tags.Keys
    requires OnTask(linked, Link(db, t, wanted), t)
    requires forall g :: g in ids <==>
      (exists tag :: tag in linked && tag.id == g) && !exists tag :: tag in existing && tag.id == g
    ensures Elements(ids) == Linked(db, t) - wanted
    ensures ids == [] <==> Linked(db, t) - wanted == {}
  {
    forall g
      ensures g in ids <==> g in Linked(db, t) && g !in wanted
    {
      assert g in wanted <==> exists tag :: tag in existing && tag.id == g;
      if g in db.tags {
        assert Tag(g, db.tags[g]) in linked <==> (t, g) in Link(db, t, wanted).links;
      }
    }
    assert ids != [] ==> ids[0] in Elements(ids);
  }

  lemma UnassignNothing(db: Db)
    ensures Unassign(db, {}) == db
  {
    assert Unassign(db, {}).links == db.links;
  }

  /** Reconcile the tags of task `t` with `names`, inside the caller's transaction. */
  method SyncTags(store: Database, t: Uuid, names: seq<string>) returns (r: Result<(), Code>)
    requires Integrity(store.Contents())
    modifies store
    ensures r.Ok? ==> store.Contents() == Sync(old(store.Contents()), t, names)
    ensures r.Err? ==> r.error == Internal
    ensures r.Ok? ==> names == [] || t in old(store.tasks)
    // The only failures are the database's own: no constraint can break when the task exists.
    ensures old(store.faults) == [] ==>
      store.faults == [] && (r.Ok? <==> names == [] || t in old(store.tasks))
    // A call with nothing to do runs the two lookups and no other statement.
    ensures r.Ok? && InSync(old(store.Contents()), t, names) ==>
      store.faults == Later(Later(old(store.faults)))
  {
    ghost var start := store.Contents();
    var found := store.GetExistingTags(names);
    if found.Err? { return Err(Internal); }
    var made := CreateMissing(store, found.value, names);
    if made.Err? { return Err(Internal); }
    var existing := made.value;
    ghost var created := store.Contents();
    AfterCreating(start, t, names, existing);

    var onTask := store.GetTaskTags(t);
    if onTask.Err? { return Err(Internal); }
    var linked := LinkMissing(store, t, existing, onTask.value);
    if linked.Err? { return Err(Internal); }

    var stale := StaleTags(linked.value, existing);
    CreateTagsEffect(start, names);
    StaleExactly(created, t, Ids(existing), linked.value, existing, stale);
    UnassignNothing(store.Contents());
    if |stale| > 0 {
      var gone := store.UnassignTags(stale);
      if gone.Err? { return Err(Internal); }
    }
    return Ok(());
  }
}
