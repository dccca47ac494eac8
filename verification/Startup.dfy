/** `Setup`: from whatever lies at the database path to a connection the service can run on. */
module Startup {
  import opened Basics
  import opened Tables
  import opened Store
  import opened Connecting
  import opened Disk
  import opened Cleanup
  import Passwords
  import Bootstrap
  import SqlText

  /** The machine stands where the specification says. */
  predicate At(host: Host, path: Path, s: Site)
    reads host
  {
    path in host.disk && host.disk[path] == s.file && host.faults == s.faults && host.stuck == s.stuck
  }

  /** A check that cannot dereference nil ended as the specification says. */
  predicate Follows(host: Host, path: Path, db: Option<Conn>, want: Course)
    reads host
  {
    (want.Ready? ==> db == Some(want.conn) && At(host, path, want.site)) && (want.Stopped? ==> db.None?)
    && !want.Crashed?
  }

  /** What can go well for the backups of a start: every rename works, and besides the timestamps differ
      and their names are free. */
  datatype Luck = Luck(renames: bool, names: bool)

  ghost function LuckOf(host: Host, path: Path, stamp: nat -> string): Luck
    reads host
  {
    Luck(host.stuck == [], host.stuck == [] && Distinct(stamp) && NamesFree(host.disk, path, stamp, 0))
  }

  /** The rows at `path` are those found there, or none. If renames work, the database found is in place
      or was moved first; if also names do, nothing was lost and those from `from` on are still free. */
  ghost predicate Traced(host: Host, path: Path, stamp: nat -> string, from: nat, origin: Files, luck: Luck)
    reads host
  {
    && Inherited(host.disk, path, origin)
    && (luck.renames ==> host.stuck == [] && Shelved(host.disk, path, origin, host.moved))
    && (luck.names ==> luck.renames && Distinct(stamp))
    && (luck.names ==> Kept(host.disk, path, origin, host.moved) && NamesFree(host.disk, path, stamp, from))
  }

  ghost predicate Inherited(disk: Files, path: Path, origin: Files) {
    path in disk && disk[path].Image? ==>
      disk[path].db == EMPTY || (path in origin && origin[path].Image? && disk[path].db == origin[path].db)
  }

  /** Back up what is there and start over: the answer to every failed check. */
  method Rebuild(host: Host, path: Path, stamp: nat -> string, site: nat, schema: Schema, ghost origin: Files,
                 ghost luck: Luck)
    returns (db: Option<Conn>)
    requires path in host.disk && site < SITES && Sane(schema) && Traced(host, path, stamp, site, origin, luck)
    modifies host
    ensures var want := Rebuilt(Site(old(host.disk)[path], old(host.faults), old(host.stuck)), schema);
      (db.Some? <==> want.Some?) && (want.Some? ==> db.value == CREATED && At(host, path, want.value))
    ensures var s := Site(old(host.disk)[path], old(host.faults), old(host.stuck));
      Rebuilt(s, schema).Some? ==> host.disk == RebuiltDisk(old(host.disk), path, stamp(site), s, schema)
    ensures !Faulty(old(host.stuck)) ==> host.moved == old(host.moved) + [old(host.disk)[path]]
    ensures Traced(host, path, stamp, site + 1, origin, luck)
  {
    host.Backup(path, stamp(site));
    StampNamesDiffer(path, stamp(site), stamp(site));
    assert !Faulty(old(host.stuck)) ==> path !in host.disk;
    if luck.names {
      MoveKeeps(old(host.disk), path, stamp, site, origin, old(host.moved));
    }
    ghost var moved := host.disk;
    var ok := host.NewDB(path, schema);
    if luck.names && path in host.disk {
      WriteKeeps(moved, path, stamp, site + 1, origin, host.moved, host.disk[path]);
    }
    return if ok then Some(CREATED) else None;
  }

  /** A path that does not exist gets a new database; the caller gives up when that fails. */
  method Open(host: Host, path: Path, stamp: nat -> string, schema: Schema) returns (db: Option<Conn>, fatal: bool)
    requires Sane(schema) && host.moved == []
    modifies host
    ensures var want := Opening(old(host.disk), path, old(host.faults), old(host.stuck), schema);
      && (want.Ready? ==> db == Some(want.conn) && At(host, path, want.site) && !fatal)
      && (want.Stopped? ==> fatal) && (want.Crashed? ==> db.None? && !fatal)
    ensures path !in old(host.disk) || !Faulty(old(host.faults)) ==> host.moved == old(host.moved)
    ensures path in old(host.disk) && !Faulty(old(host.faults)) ==> host.disk == old(host.disk)
    ensures Traced(host, path, stamp, 1, old(host.disk), old(LuckOf(host, path, stamp)))
  {
    if path !in host.disk {
      var ok := host.NewDB(path, schema);
      if old(LuckOf(host, path, stamp)).names && path in host.disk {
        WriteKeeps(old(host.disk), path, stamp, 1, old(host.disk), host.moved, host.disk[path]);
      }
      return if ok then Some(CREATED) else None, !ok;
    }
    fatal := false;
    var bad := host.Trips();
    if bad {
      db := Rebuild(host, path, stamp, 0, schema, host.disk, LuckOf(host, path, stamp));
    } else {
      db := Some(Conn({}));
    }
  }

  method ApplyPragma(host: Host, path: Path, stamp: nat -> string, schema: Schema, i: nat, conn: Conn,
                     ghost origin: Files, ghost luck: Luck)
    returns (db: Option<Conn>)
    requires Sane(schema) && i < |PRAGMAS| && path in host.disk && Traced(host, path, stamp, 1 + i, origin, luck)
    modifies host
    ensures var s := Site(old(host.disk)[path], old(host.faults), old(host.stuck));
      if !SettingFails(s, i) then
        db == Some(Conn(conn.applied + {PRAGMAS[i]})) && At(host, path, Next(s)) && host.disk == old(host.disk)
      else
        var want := Rebuilt(Next(s), schema);
        && (db.Some? <==> want.Some?) && (want.Some? ==> db.value == CREATED && At(host, path, want.value))
        && (want.Some? ==> host.disk == RebuiltDisk(old(host.disk), path, stamp(1 + i), Next(s), schema))
    ensures db != Some(CREATED) && db.Some? ==> host.moved == old(host.moved)
    ensures Traced(host, path, stamp, 2 + i, origin, luck)
  {
    var bad := host.Trips();
    if bad || (PRAGMAS[i] == JournalMode && host.disk[path].Junk?) {
      db := Rebuild(host, path, stamp, 1 + i, schema, origin, luck);
    } else {
      db := Some(Conn(conn.applied + {PRAGMAS[i]}));
    }
  }

  /** One turn of the loop, as the specification counts them. */
  method NextPragma(host: Host, path: Path, stamp: nat -> string, schema: Schema, i: nat, conn: Conn,
                    ghost origin: Files, ghost luck: Luck)
    returns (db: Option<Conn>)
    requires Sane(schema) && i < |PRAGMAS| && path in host.disk && Traced(host, path, stamp, 1 + i, origin, luck)
    modifies host
    ensures var s := Site(old(host.disk)[path], old(host.faults), old(host.stuck));
      if db.Some? then
        && path in host.disk
        && var t := Site(host.disk[path], host.faults, host.stuck);
          && Settling(s, conn, i, schema) == Settling(t, db.value, i + 1, schema)
          && SettlingDisk(old(host.disk), path, stamp, s, i, schema)
             == SettlingDisk(host.disk, path, stamp, t, i + 1, schema)
      else Settling(s, conn, i, schema) == if i + 1 == |PRAGMAS| then Stopped else Crashed
    ensures db.Some? && BusyTimeout in db.value.applied ==>
      host.disk == old(host.disk) && host.moved == old(host.moved) && (i == 0 || BusyTimeout in conn.applied)
    ensures Traced(host, path, stamp, 2 + i, origin, luck)
  {
    db := ApplyPragma(host, path, stamp, schema, i, conn, origin, luck);
  }

  /** The settings, one after the other. After a failure the ones made before are not repeated on the
      new connection; and when even the new database fails, the next setting dereferences nil. `want`
      and `after` are the course and the disk that the specification gives. */
  method EachPragma(host: Host, path: Path, stamp: nat -> string, schema: Schema, start: Option<Conn>,
                    ghost want: Course, ghost after: Files, ghost origin: Files, ghost luck: Luck)
    returns (db: Option<Conn>, panicked: bool)
    requires Sane(schema) && Traced(host, path, stamp, 1, origin, luck)
    requires start.Some? ==>
      && path in host.disk
      && var s := Site(host.disk[path], host.faults, host.stuck);
        want == Settling(s, start.value, 0, schema) && after == SettlingDisk(host.disk, path, stamp, s, 0, schema)
    modifies host
    ensures start.None? ==> panicked
    ensures start.Some? ==>
      && (want.Ready? ==> !panicked && db == Some(want.conn) && At(host, path, want.site) && host.disk == after)
      && (want.Stopped? ==> !panicked && db.None?) && (want.Crashed? ==> panicked)
    ensures db.Some? && BusyTimeout in db.value.applied ==> host.disk == old(host.disk) && host.moved == old(host.moved)
    ensures Traced(host, path, stamp, 8, origin, luck)
  {
    db, panicked := start, false;
    for i := 0 to |PRAGMAS|
      invariant !panicked && (start.None? ==> i == 0 && db.None?)
      invariant db.Some? ==>
        && path in host.disk
        && var t := Site(host.disk[path], host.faults, host.stuck);
          want == Settling(t, db.value, i, schema) && after == SettlingDisk(host.disk, path, stamp, t, i, schema)
      invariant start.Some? && db.None? ==> i > 0 && want == if i == |PRAGMAS| then Stopped else Crashed
      invariant i == 0 || (db.Some? && BusyTimeout in db.value.applied) ==>
        host.disk == old(host.disk) && host.moved == old(host.moved)
      invariant Traced(host, path, stamp, 1 + i, origin, luck)
    {
      if db.None? { return None, true; }
      db := NextPragma(host, path, stamp, schema, i, db.value, origin, luck);
    }
  }

  method ApplyPragmas(host: Host, path: Path, stamp: nat -> string, schema: Schema, start: Option<Conn>,
                      ghost origin: Files, ghost luck: Luck)
    returns (db: Option<Conn>, panicked: bool)
    requires Sane(schema) && (start.Some? ==> path in host.disk) && Traced(host, path, stamp, 1, origin, luck)
    modifies host
    ensures start.None? ==> panicked
    ensures start.Some? ==>
      var s := Site(old(host.disk)[path], old(host.faults), old(host.stuck));
      var want := Settling(s, start.value, 0, schema);
      && (want.Ready? ==> !panicked && db == Some(want.conn) && At(host, path, want.site))
      && (want.Ready? ==> host.disk == SettlingDisk(old(host.disk), path, stamp, s, 0, schema))
      && (want.Stopped? ==> !panicked && db.None?) && (want.Crashed? ==> panicked)
    ensures db.Some? && BusyTimeout in db.value.applied ==> host.disk == old(host.disk) && host.moved == old(host.moved)
    ensures Traced(host, path, stamp, 8, origin, luck)
  {
    ghost var want, after := Stopped, host.disk;
    if start.Some? {
      var s := Site(host.disk[path], host.faults, host.stuck);
      want, after := Settling(s, start.value, 0, schema), SettlingDisk(host.disk, path, stamp, s, 0, schema);
    }
    db, panicked := EachPragma(host, path, stamp, schema, start, want, after, origin, luck);
  }

  method CheckIntegrity(host: Host, path: Path, stamp: nat -> string, schema: Schema, conn: Conn, ghost origin: Files,
                        ghost luck: Luck)
    returns (db: Option<Conn>)
    requires Sane(schema) && path in host.disk && host.disk[path].Image? && Traced(host, path, stamp, 8, origin, luck)
    modifies host
    ensures var s := Site(old(host.disk)[path], old(host.faults), old(host.stuck));
      Follows(host, path, db, Checking(s, conn, s.file.sound, schema))
    ensures if Faulty(old(host.faults)) || !old(host.disk)[path].sound
      then !Faulty(old(host.stuck)) ==> host.moved == old(host.moved) + [old(host.disk)[path]]
      else host.disk == old(host.disk) && host.moved == old(host.moved)
    ensures Traced(host, path, stamp, 9, origin, luck)
  {
    var bad := host.Trips();
    if bad || !host.disk[path].sound {
      db := Rebuild(host, path, stamp, 8, schema, origin, luck);
    } else {
      db := Some(conn);
    }
  }

  /** `fetchSchema` on a good connection: one stored text per line. */
  method FetchSchema(tables: seq<string>) returns (text: string)
    ensures text == SqlText.Lines(tables)
  {
    text := "";
    assert SqlText.Lines(tables[..0]) == "";
    for i := 0 to |tables|
      invariant text == SqlText.Lines(tables[..i])
    {
      assert tables[..i + 1] == tables[..i] + [tables[i]];
      SqlText.LinesConcat(tables[..i], [tables[i]]);
      assert SqlText.Lines([tables[i]]) == tables[i] + "\n" by { assert [tables[i]][1..] == []; }
      text := text + (tables[i] + "\n");
    }
    assert tables[..|tables|] == tables;
  }

  /** Kept when it matches, otherwise moved away and rebuilt. */
  method CheckSchema(host: Host, path: Path, stamp: nat -> string, schema: Schema, conn: Conn, ghost origin: Files,
                        ghost luck: Luck)
    returns (db: Option<Conn>)
    requires Sane(schema) && path in host.disk && host.disk[path].Image? && Traced(host, path, stamp, 9, origin, luck)
    modifies host
    ensures var s := Site(old(host.disk)[path], old(host.faults), old(host.stuck));
      Follows(host, path, db, Checking(s, conn, Matches(s.file.tables, schema), schema))
    ensures if Faulty(old(host.faults)) || !Matches(old(host.disk)[path].tables, schema)
      then !Faulty(old(host.stuck)) ==> host.moved == old(host.moved) + [old(host.disk)[path]]
      else host.disk == old(host.disk) && host.moved == old(host.moved)
    ensures Traced(host, path, stamp, SITES, origin, luck)
  {
    var bad := host.Trips();
    var actual := FetchSchema(host.disk[path].tables);
    var expected := SqlText.Source(schema.items, schema.trailer);
    if bad || SqlText.NormalizeSQL(expected) != SqlText.NormalizeSQL(actual) {
      db := Rebuild(host, path, stamp, 9, schema, origin, luck);
    } else {
      db := Some(conn);
    }
  }

  /** Both checks of the whole database. */
  method CheckDatabase(host: Host, path: Path, stamp: nat -> string, schema: Schema, conn: Conn, ghost origin: Files,
                        ghost luck: Luck)
    returns (db: Option<Conn>)
    requires Sane(schema) && path in host.disk && host.disk[path].Image? && Traced(host, path, stamp, 8, origin, luck)
    modifies host
    ensures var settled := Ready(Site(old(host.disk)[path], old(host.faults), old(host.stuck)), conn);
      && Follows(host, path, db, Comparing(Inspecting(settled, schema), schema))
      && (db.Some? && LaterRebuilds(settled, schema) == 0 ==> host.disk == old(host.disk))
    ensures db.Some? && BusyTimeout in db.value.applied ==> host.disk == old(host.disk) && host.moved == old(host.moved)
    ensures Traced(host, path, stamp, SITES, origin, luck)
  {
    db := CheckIntegrity(host, path, stamp, schema, conn, origin, luck);
    if db.Some? { db := CheckSchema(host, path, stamp, schema, db.value, origin, luck); }
  }

  /** What a start makes of the rows it keeps: an admin, revocations past their grace removed, and a
      timer for each one found. */
  ghost predicate Started(before: Db, after: Db, timers: multiset<Timer>, id: Uuid, secret: Secret, start: int,
                          end: int) {
    && after == Bootstrap.AdminEnsured(before, id, secret, start).(revoked := after.revoked)
    && (Bootstrap.NeedsUser(before) ==> id !in before.users)
    && timers == multiset(TimersFor(before.revoked, before.revoked.Keys))
    && start <= end && Trimmed(before.revoked, after.revoked, end) && NoneBefore(after.revoked, start)
  }

  lemma StartedHasAdmin(before: Db, after: Db, timers: multiset<Timer>, id: Uuid, secret: Secret, start: int, end: int)
    requires Integrity(before) && Started(before, after, timers, id, secret, start, end)
    ensures Integrity(after) && Bootstrap.SomeAdmin(after)
  {
    Bootstrap.AdminGuaranteed(before, id, secret, start);
  }

  method Populate(host: Host, path: Path, scheduler: Scheduler, c: Passwords.Crypto, cfg: Passwords.Config,
                  dice: Bootstrap.Dice, start: int, pause: nat -> nat)
    returns (store: Database, ok: bool, ghost secret: Secret, ghost end: int)
    requires path in host.disk && host.disk[path].Image? && Bootstrap.Fair(dice) && scheduler.timers == multiset{}
    modifies host, scheduler
    ensures fresh(store) && host.stuck == old(host.stuck) && host.moved == old(host.moved)
    ensures host.disk == old(host.disk)[path := old(host.disk)[path].(db := store.Contents())]
    ensures ok ==> Started(old(host.disk)[path].db, store.Contents(), scheduler.timers, dice.id, secret, start, end)
    ensures ok && Bootstrap.NeedsUser(old(host.disk)[path].db) ==> Bootstrap.MadeFrom(c, cfg, dice, secret)
    ensures old(host.faults) == [] ==>
      && host.faults == []
      && (ok <==> !Bootstrap.NeedsUser(old(host.disk)[path].db) || Bootstrap.Drawable(old(host.disk)[path].db, dice))
  {
    store := new Database(host.disk[path].db, host.faults);
    end := start;
    var admin := Bootstrap.ValidateAdmin(store, c, cfg, dice, start);
    ok := admin.Ok?;
    secret := if admin.Ok? && dice.salt.Some?
              then Passwords.Hashed(c, admin.value, dice.salt.value, cfg.numCpu % 256) else Secret("", "");
    if ok {
      ghost var named := store.Contents();
      var cleaned, finished := TokenCleanupProcess(store, scheduler, start, pause);
      end := finished;
      ok := cleaned.Ok?;
      assert store.Contents() == named.(revoked := store.revoked);
    }
    host.disk := host.disk[path := host.disk[path].(db := store.Contents())];
    host.faults := store.faults;
  }

  datatype Outcome = Handle(conn: Conn) | Failed | Panicked

  /** The database found was moved first, or else it is in place and only its rows can have changed. */
  ghost predicate Refilled(disk: Files, path: Path, origin: Files, moved: seq<File>) {
    path in origin ==>
      if moved != [] then moved[0] == origin[path]
      else path in disk && (disk[path] == origin[path]
                            || (disk[path].Image? && origin[path].Image?
                                && disk[path] == origin[path].(db := disk[path].db)))
  }

  /** Opening and settings follow `Prepared`. */
  method Prepare(host: Host, path: Path, stamp: nat -> string, schema: Schema)
    returns (db: Option<Conn>, panicked: bool)
    requires Sane(schema) && host.moved == []
    modifies host
    ensures var want := Prepared(old(host.disk), path, old(host.faults), old(host.stuck), schema);
      && (want.Ready? <==> db.Some?) && (want.Ready? ==> db.value == want.conn && At(host, path, want.site))
      && (want.Crashed? <==> panicked)
    ensures path in old(host.disk) && !Faulty(old(host.faults)) && db.Some? ==>
      && host.disk == AfterSettings(old(host.disk), path, stamp, old(host.faults), old(host.stuck), schema)
      && (BusyTimeout in db.value.applied ==> host.disk == old(host.disk) && host.moved == old(host.moved))
    ensures Traced(host, path, stamp, 8, old(host.disk), old(LuckOf(host, path, stamp)))
  {
    var start, fatal := Open(host, path, stamp, schema);
    if fatal { return None, false; }
    db, panicked := ApplyPragmas(host, path, stamp, schema, start, old(host.disk), old(LuckOf(host, path, stamp)));
    if panicked { db := None; }
  }

  /** The checks, up to a connection with rows ready to be used, follow `Connected`. */
  method Connect(host: Host, path: Path, stamp: nat -> string, schema: Schema)
    returns (db: Option<Conn>, panicked: bool)
    requires Sane(schema) && host.moved == []
    modifies host
    ensures var want := Connected(old(host.disk), path, old(host.faults), old(host.stuck), schema);
      && (want.Ready? <==> db.Some?) && (want.Ready? ==> db.value == want.conn && At(host, path, want.site))
      && (want.Crashed? <==> panicked)
    ensures path in old(host.disk) && !Faulty(old(host.faults)) && db.Some? && AllApplied(db.value) ==> host.moved == []
    ensures db.Some? && SettingsOnly(old(host.disk), path, old(host.faults), old(host.stuck), schema) ==>
      host.disk == AfterSettings(old(host.disk), path, stamp, old(host.faults), old(host.stuck), schema)
    ensures old(host.stuck) == [] && Distinct(stamp) && NamesFree(old(host.disk), path, stamp, 0) ==>
      Kept(host.disk, path, old(host.disk), host.moved)
    ensures Traced(host, path, stamp, SITES, old(host.disk), old(LuckOf(host, path, stamp)))
  {
    assert BusyTimeout == PRAGMAS[0] && PRAGMAS[0] in PRAGMAS;
    PreparedThenChecked(host.disk, path, host.faults, host.stuck, schema);
    ghost var origin, luck := host.disk, LuckOf(host, path, stamp);
    db, panicked := Prepare(host, path, stamp, schema);
    if db.Some? { db := CheckDatabase(host, path, stamp, schema, db.value, origin, luck); }
  }

  /** From a connection to a handle: admin and timers. */
  method Finish(host: Host, path: Path, scheduler: Scheduler, c: Passwords.Crypto, cfg: Passwords.Config,
                dice: Bootstrap.Dice, start: int, pause: nat -> nat, conn: Conn)
    returns (outcome: Outcome, store: Database?, ghost before: Db, ghost secret: Secret, ghost end: int)
    requires path in host.disk && host.disk[path].Image? && Bootstrap.Fair(dice) && scheduler.timers == multiset{}
    modifies host, scheduler
    ensures before == old(host.disk)[path].db && host.moved == old(host.moved)
    ensures path in host.disk && host.disk == old(host.disk)[path := host.disk[path]]
    ensures host.disk[path].Image? && host.disk[path] == old(host.disk)[path].(db := host.disk[path].db)
    ensures outcome == Failed || outcome == Handle(conn)
    ensures outcome.Handle? ==>
      && store != null && fresh(store) && host.disk[path].db == store.Contents()
      && Started(before, store.Contents(), scheduler.timers, dice.id, secret, start, end)
      && (Bootstrap.NeedsUser(before) ==> Bootstrap.MadeFrom(c, cfg, dice, secret))
      && (Integrity(before) ==> Integrity(store.Contents()) && Bootstrap.SomeAdmin(store.Contents()))
    ensures old(host.faults) == [] ==>
      (outcome.Handle? <==> !Bootstrap.NeedsUser(before) || Bootstrap.Drawable(before, dice))
  {
    before := host.disk[path].db;
    var filled, ok, s, e := Populate(host, path, scheduler, c, cfg, dice, start, pause);
    secret, end := s, e;
    if !ok { return Failed, null, before, secret, end; }
    if Integrity(before) { StartedHasAdmin(before, filled.Contents(), scheduler.timers, dice.id, secret, start, end); }
    return Handle(conn), filled, before, secret, end;
  }

  /** What a returned handle guarantees, in the state `host` is left in. */
  ghost predicate Guaranteed(host: Host, path: Path, outcome: Outcome, store: Database, origin: Files, before: Db)
    requires outcome.Handle?
    reads host, store
  {
    && {ForeignKeys, JournalMode} <= outcome.conn.applied
    && path in host.disk && host.disk[path].Image? && host.disk[path].db == store.Contents()
    && (before == EMPTY || (path in origin && origin[path].Image? && before == origin[path].db))
    && (Integrity(before) ==> Integrity(store.Contents()) && Bootstrap.SomeAdmin(store.Contents()))
  }

  /** The start, along the course that `Connected` gives. */
  method Begin(host: Host, path: Path, stamp: nat -> string, schema: Schema, scheduler: Scheduler,
               c: Passwords.Crypto, cfg: Passwords.Config, dice: Bootstrap.Dice, start: int, pause: nat -> nat)
    returns (outcome: Outcome, store: Database?, ghost course: Course, ghost before: Db, ghost secret: Secret,
             ghost end: int)
    requires Sane(schema) && Bootstrap.Fair(dice) && host.moved == [] && scheduler.timers == multiset{}
    modifies host, scheduler
    ensures course == Connected(old(host.disk), path, old(host.faults), old(host.stuck), schema)
    ensures outcome.Panicked? <==> course.Crashed?
    ensures course.Ready? ==> course.site.file.Image? && before == course.site.file.db
    ensures outcome.Handle? ==>
      && course.Ready? && outcome.conn == course.conn && store != null && fresh(store)
      && Guaranteed(host, path, outcome, store, old(host.disk), before)
      && host.disk[path] == course.site.file.(db := host.disk[path].db)
      && Started(before, store.Contents(), scheduler.timers, dice.id, secret, start, end)
      && (Bootstrap.NeedsUser(before) ==> Bootstrap.MadeFrom(c, cfg, dice, secret))
    ensures course.Ready? && course.site.faults == [] ==>
      (outcome.Handle? <==> !Bootstrap.NeedsUser(before) || Bootstrap.Drawable(before, dice))
    ensures path in old(host.disk) && !Faulty(old(host.faults)) && course.Ready? && AllApplied(course.conn) ==>
      host.moved == []
    ensures course.Ready? && SettingsOnly(old(host.disk), path, old(host.faults), old(host.stuck), schema) ==>
      var disk := AfterSettings(old(host.disk), path, stamp, old(host.faults), old(host.stuck), schema);
      path in host.disk && host.disk == disk[path := host.disk[path]]
    ensures old(host.stuck) == [] && Distinct(stamp) && NamesFree(old(host.disk), path, stamp, 0) ==>
      Kept(host.disk, path, old(host.disk), host.moved)
    ensures old(host.stuck) == [] ==>
      && Refilled(host.disk, path, old(host.disk), host.moved)
      && (course.Ready? && path in old(host.disk) && host.moved == [] ==> Healthy(old(host.disk)[path], schema))
  {
    before, secret, end, store := EMPTY, Secret("", ""), start, null;
    ghost var origin := host.disk;
    ghost var safe := host.stuck == [] && Distinct(stamp) && NamesFree(host.disk, path, stamp, 0);
    course := Connected(origin, path, host.faults, host.stuck, schema);
    if course.Ready? { ConnectedIsUsable(origin, path, host.faults, host.stuck, schema); }
    var db, panicked := Connect(host, path, stamp, schema);
    if panicked { return Panicked, null, course, before, secret, end; }
    if db.None? { return Failed, null, course, before, secret, end; }
    ghost var ready := host.disk;
    outcome, store, before, secret, end := Finish(host, path, scheduler, c, cfg, dice, start, pause, db.value);
    if safe { RefillKeeps(ready, path, origin, host.moved, host.disk[path]); }
  }

  /** A sound file is healthy exactly when it has the words of the schema's statements. */
  lemma WordsDecide(file: File, schema: Schema)
    requires Sane(schema)
    ensures file.Image? && file.sound && SqlText.Listed(file.tables, SqlText.SEQUENCE) ==>
      (Healthy(file, schema) <==> SqlText.AllWords(SqlText.Besides(file.tables, SqlText.SEQUENCE))
                                  == SqlText.AllWords(SqlText.Statements(schema.items)))
  {
    if file.Image? && SqlText.Listed(file.tables, SqlText.SEQUENCE) { MatchesExactly(file.tables, schema); }
  }

  /** Over every script of failures: a handle that is returned without error has foreign keys enforced,
      a write-ahead log and an admin, and its rows are those found at `path` or none. The connection,
      the file and the nil dereferences are those of `Connected`. As long as renames succeed it has the
      expected schema, and a file that was not healthy was moved away; if also timestamps differ, every
      file survives. Without faults the file found is moved away exactly when it is not healthy, and for
      a sound one that is when some word of its schema differs from the expected one. */
  method Setup(host: Host, path: Path, stamp: nat -> string, schema: Schema, scheduler: Scheduler,
               c: Passwords.Crypto, cfg: Passwords.Config, dice: Bootstrap.Dice, start: int, pause: nat -> nat)
    returns (outcome: Outcome, store: Database?, ghost course: Course, ghost before: Db, ghost secret: Secret,
             ghost end: int)
    requires Sane(schema) && Bootstrap.Fair(dice) && host.moved == [] && scheduler.timers == multiset{}
    modifies host, scheduler
    ensures course == Connected(old(host.disk), path, old(host.faults), old(host.stuck), schema)
    ensures outcome.Panicked? <==> course.Crashed?
    ensures course.Ready? ==> course.site.file.Image? && before == course.site.file.db
    ensures outcome.Handle? ==>
      && course.Ready? && outcome.conn == course.conn && store != null && fresh(store)
      && Guaranteed(host, path, outcome, store, old(host.disk), before)
      && host.disk[path] == course.site.file.(db := host.disk[path].db)
      && (old(host.stuck) == [] ==> Matches(host.disk[path].tables, schema))
      && Started(before, store.Contents(), scheduler.timers, dice.id, secret, start, end)
      && (Bootstrap.NeedsUser(before) ==> Bootstrap.MadeFrom(c, cfg, dice, secret))
    ensures course.Ready? && SettingsOnly(old(host.disk), path, old(host.faults), old(host.stuck), schema) ==>
      var disk := AfterSettings(old(host.disk), path, stamp, old(host.faults), old(host.stuck), schema);
      path in host.disk && host.disk == disk[path := host.disk[path]]
    ensures old(host.stuck) == [] && Distinct(stamp) && NamesFree(old(host.disk), path, stamp, 0) ==>
      Kept(host.disk, path, old(host.disk), host.moved)
    ensures old(host.stuck) == [] ==>
      && Refilled(host.disk, path, old(host.disk), host.moved)
      && (course.Ready? && path in old(host.disk) && host.moved == [] ==> Healthy(old(host.disk)[path], schema))
    ensures course.Ready? && course.site.faults == [] ==>
      (outcome.Handle? <==> !Bootstrap.NeedsUser(before) || Bootstrap.Drawable(before, dice))
    ensures old(host.faults) == [] && old(host.stuck) == [] ==> course.Ready? && course.site.faults == []
    ensures path in old(host.disk) && !Faulty(old(host.faults)) && course.Ready? && AllApplied(course.conn) ==>
      host.moved == []
    ensures old(host.faults) == [] && old(host.stuck) == [] && path in old(host.disk) ==>
      var file := old(host.disk)[path];
      && (host.moved == [] <==> Healthy(file, schema))
      && (file.Image? && file.sound && SqlText.Listed(file.tables, SqlText.SEQUENCE) ==>
            (host.moved == [] <==> SqlText.AllWords(SqlText.Besides(file.tables, SqlText.SEQUENCE))
                                   == SqlText.AllWords(SqlText.Statements(schema.items))))
    ensures old(host.faults) == [] ==>
      (outcome.Panicked? <==> path in old(host.disk) && old(host.disk)[path].Junk? && Faulty(old(host.stuck)))
    ensures old(host.faults) == [] && path in old(host.disk) && Healthy(old(host.disk)[path], schema) ==>
      && before == old(host.disk)[path].db && host.moved == []
      && (outcome.Handle? ==> AllApplied(outcome.conn))
    ensures path in old(host.disk) && |old(host.faults)| > 1 && old(host.faults)[0] && old(host.faults)[1] ==>
      outcome == Panicked
  {
    PlainStarts(host.disk, path, host.faults, host.stuck, schema);
    if path in host.disk { WordsDecide(host.disk[path], schema); }
    if Connected(host.disk, path, host.faults, host.stuck, schema).Ready? {
      ConnectedIsUsable(host.disk, path, host.faults, host.stuck, schema);
    }
    outcome, store, course, before, secret, end :=
      Begin(host, path, stamp, schema, scheduler, c, cfg, dice, start, pause);
  }
}
