/** The checks of a start as a function of the file at the database path and of the script of failures,
    and from it exactly when a start loses settings, dereferences nil, drops the rows it found, or hands
    out a database with the wrong schema. */
module Connecting {
  import opened Basics
  import opened Store
  import opened Disk
  import SqlText

  datatype Pragma =
    BusyTimeout | JournalMode | JournalSizeLimit | Synchronous | ForeignKeys | TempStore | CacheSize

  const PRAGMAS: seq<Pragma> :=
    [BusyTimeout, JournalMode, JournalSizeLimit, Synchronous, ForeignKeys, TempStore, CacheSize]

  /** An open connection and the settings made on it. A setting that reports no error took effect. */
  datatype Conn = Conn(applied: set<Pragma>)

  /** What a new database is opened with. */
  const CREATED := Conn({ForeignKeys, JournalMode})

  /** Sound, and with the schema of this version. */
  predicate Healthy(file: File, schema: Schema) {
    file.Image? && file.sound && Matches(file.tables, schema)
  }

  /** The file at the path, and what is left of the scripts of statements and of renames. */
  datatype Site = Site(file: File, faults: seq<bool>, stuck: seq<bool>)

  /** A usable connection, an error returned, or a nil dereference. */
  datatype Course = Ready(site: Site, conn: Conn) | Stopped | Crashed

  /** Backup and new database. A rename that fails leaves the old file to add the tables to. */
  function Rebuilt(s: Site, schema: Schema): Option<Site> {
    if Trouble(s.faults, STATEMENTS) then None
    else if !Faulty(s.stuck) then
      Some(Site(Image(true, MasterRows(schema), EMPTY), Drop(s.faults, STATEMENTS), Later(s.stuck)))
    else if s.file.Junk? || Clashes(s.file.tables, schema) then None
    else
      Some(Site(s.file.(tables := s.file.tables + MasterRows(schema)), Drop(s.faults, STATEMENTS), Later(s.stuck)))
  }

  function Next(s: Site): Site {
    s.(faults := Later(s.faults))
  }

  function Opening(disk: Files, path: Path, faults: seq<bool>, stuck: seq<bool>, schema: Schema): Course {
    if path !in disk then
      if Trouble(faults, STATEMENTS) then Stopped
      else Ready(Site(Image(true, MasterRows(schema), EMPTY), Drop(faults, STATEMENTS), stuck), CREATED)
    else
      var s := Next(Site(disk[path], faults, stuck));
      if !Faulty(faults) then Ready(s, Conn({}))
      else if Rebuilt(s, schema).None? then Crashed
      else Ready(Rebuilt(s, schema).value, CREATED)
  }

  /** Does setting `i` fail? The first to read the file is the journal mode. */
  predicate SettingFails(s: Site, i: nat)
    requires i < |PRAGMAS|
  {
    Faulty(s.faults) || (PRAGMAS[i] == JournalMode && s.file.Junk?)
  }

  /** The settings from `i` on. The one after a rebuild that failed dereferences nil, except that after
      the last there is none. */
  function Settling(s: Site, conn: Conn, i: nat, schema: Schema): Course
    requires i <= |PRAGMAS|
    decreases |PRAGMAS| - i, s
  {
    if i == |PRAGMAS| then Ready(s, conn)
    else if !SettingFails(s, i) then Settling(Next(s), Conn(conn.applied + {PRAGMAS[i]}), i + 1, schema)
    else if Rebuilt(Next(s), schema).Some? then Settling(Rebuilt(Next(s), schema).value, CREATED, i + 1, schema)
    else if i + 1 == |PRAGMAS| then Stopped
    else Crashed
  }

  /** One check of a whole database: when it fails, and so does the rebuild, the start stops. */
  function Checking(s: Site, conn: Conn, passes: bool, schema: Schema): Course {
    if !Faulty(s.faults) && passes then Ready(Next(s), conn)
    else if Rebuilt(Next(s), schema).Some? then Ready(Rebuilt(Next(s), schema).value, CREATED)
    else Stopped
  }

  function Inspecting(course: Course, schema: Schema): Course {
    if course.Ready? then Checking(course.site, course.conn, course.site.file.Image? && course.site.file.sound, schema)
    else course
  }

  function Comparing(course: Course, schema: Schema): Course {
    if course.Ready?
    then Checking(course.site, course.conn, course.site.file.Image? && Matches(course.site.file.tables, schema), schema)
    else course
  }

  function Checked(opening: Course, schema: Schema): Course {
    if opening.Ready?
    then Comparing(Inspecting(Settling(opening.site, opening.conn, 0, schema), schema), schema)
    else opening
  }

  function Connected(disk: Files, path: Path, faults: seq<bool>, stuck: seq<bool>, schema: Schema): Course {
    Checked(Opening(disk, path, faults, stuck, schema), schema)
  }

  /** The course up to the checks of the whole database. */
  function Prepared(disk: Files, path: Path, faults: seq<bool>, stuck: seq<bool>, schema: Schema): Course {
    var opening := Opening(disk, path, faults, stuck, schema);
    if opening.Ready? then Settling(opening.site, opening.conn, 0, schema) else opening
  }

  lemma PreparedThenChecked(disk: Files, path: Path, faults: seq<bool>, stuck: seq<bool>, schema: Schema)
    ensures var prepared := Prepared(disk, path, faults, stuck, schema);
      && Connected(disk, path, faults, stuck, schema) == Comparing(Inspecting(prepared, schema), schema)
      && (prepared.Ready? ==> prepared.site.file.Image?)
  {
    var opening := Opening(disk, path, faults, stuck, schema);
    if opening.Ready? { SettledIsUsable(opening.site, opening.conn, 0, schema); }
  }

  // What every connection has

  lemma {:induction false} SettledIsUsable(s: Site, conn: Conn, i: nat, schema: Schema)
    requires i <= |PRAGMAS|
    requires i > 1 ==> s.file.Image? && JournalMode in conn.applied
    requires i > 4 ==> ForeignKeys in conn.applied
    ensures var course := Settling(s, conn, i, schema);
      course.Ready? ==> course.site.file.Image? && CREATED.applied <= course.conn.applied
    decreases |PRAGMAS| - i
  {
    if i < |PRAGMAS| {
      if !SettingFails(s, i) {
        SettledIsUsable(Next(s), Conn(conn.applied + {PRAGMAS[i]}), i + 1, schema);
      } else if Rebuilt(Next(s), schema).Some? {
        SettledIsUsable(Rebuilt(Next(s), schema).value, CREATED, i + 1, schema);
      }
    }
  }

  /** A database, with foreign keys enforced and a write-ahead log; sound and with the expected schema as
      long as renames succeed. */
  lemma ConnectedIsUsable(disk: Files, path: Path, faults: seq<bool>, stuck: seq<bool>, schema: Schema)
    requires Sane(schema)
    ensures var course := Connected(disk, path, faults, stuck, schema);
      course.Ready? ==>
        && course.site.file.Image? && CREATED.applied <= course.conn.applied
        && (stuck == [] ==> Healthy(course.site.file, schema))
  {
    var opening := Opening(disk, path, faults, stuck, schema);
    if Connected(disk, path, faults, stuck, schema).Ready? {
      SettledIsUsable(opening.site, opening.conn, 0, schema);
      ChecksAreUsable(Settling(opening.site, opening.conn, 0, schema), schema);
      if stuck == [] { SettlingStuck(opening.site, opening.conn, 0, schema); }
    }
  }

  lemma ChecksAreUsable(settled: Course, schema: Schema)
    requires Sane(schema) && settled.Ready? && settled.site.file.Image? && CREATED.applied <= settled.conn.applied
    requires Comparing(Inspecting(settled, schema), schema).Ready?
    ensures var course := Comparing(Inspecting(settled, schema), schema);
      && course.site.file.Image? && CREATED.applied <= course.conn.applied
      && (settled.site.stuck == [] ==> Healthy(course.site.file, schema))
  {
    CreatedMatches(schema);
  }

  lemma {:induction false} SettlingStuck(s: Site, conn: Conn, i: nat, schema: Schema)
    requires i <= |PRAGMAS| && s.stuck == []
    ensures Settling(s, conn, i, schema).Ready? ==> Settling(s, conn, i, schema).site.stuck == []
    decreases |PRAGMAS| - i
  {
    if i < |PRAGMAS| {
      if !SettingFails(s, i) {
        SettlingStuck(Next(s), Conn(conn.applied + {PRAGMAS[i]}), i + 1, schema);
      } else if Rebuilt(Next(s), schema).Some? {
        SettlingStuck(Rebuilt(Next(s), schema).value, CREATED, i + 1, schema);
      }
    }
  }

  // Which settings a connection has

  ghost predicate AllApplied(conn: Conn) {
    forall pragma :: pragma in PRAGMAS ==> pragma in conn.applied
  }

  /** Once a rebuild has happened, the settings before it are missing for good. */
  lemma {:induction false} LostSettings(s: Site, conn: Conn, i: nat, schema: Schema)
    requires 0 < i <= |PRAGMAS| && BusyTimeout !in conn.applied
    ensures var course := Settling(s, conn, i, schema);
      course.Ready? ==> BusyTimeout !in course.conn.applied
    decreases |PRAGMAS| - i
  {
    if i < |PRAGMAS| {
      if !SettingFails(s, i) {
        LostSettings(Next(s), Conn(conn.applied + {PRAGMAS[i]}), i + 1, schema);
      } else if Rebuilt(Next(s), schema).Some? {
        LostSettings(Rebuilt(Next(s), schema).value, CREATED, i + 1, schema);
      }
    }
  }

  /** Does no setting from `i` on fail? */
  predicate Smooth(s: Site, i: nat)
    requires i <= |PRAGMAS|
  {
    !Trouble(s.faults, |PRAGMAS| - i) && (i <= 1 ==> s.file.Image?)
  }

  /** Then all of them are made, and the file is not touched. */
  lemma {:induction false} SmoothSettling(s: Site, conn: Conn, i: nat, schema: Schema)
    requires i <= |PRAGMAS| && Smooth(s, i)
    ensures var course := Settling(s, conn, i, schema);
      && course.Ready? && course.site == s.(faults := Drop(s.faults, |PRAGMAS| - i))
      && conn.applied <= course.conn.applied
      && forall k :: i <= k < |PRAGMAS| ==> PRAGMAS[k] in course.conn.applied
    decreases |PRAGMAS| - i
  {
    if i < |PRAGMAS| {
      SmoothSettling(Next(s), Conn(conn.applied + {PRAGMAS[i]}), i + 1, schema);
    }
  }

  /** Otherwise at least the first is missing. */
  lemma {:induction false} RoughSettling(s: Site, conn: Conn, i: nat, schema: Schema)
    requires i <= |PRAGMAS| && !Smooth(s, i)
    ensures var course := Settling(s, conn, i, schema);
      course.Ready? ==> BusyTimeout !in course.conn.applied
    decreases |PRAGMAS| - i
  {
    if i < |PRAGMAS| {
      if !SettingFails(s, i) {
        RoughSettling(Next(s), Conn(conn.applied + {PRAGMAS[i]}), i + 1, schema);
      } else if Rebuilt(Next(s), schema).Some? {
        LostSettings(Rebuilt(Next(s), schema).value, CREATED, i + 1, schema);
      }
    }
  }

  /** All settings are made exactly when none fails. */
  lemma SettlingKeepsAll(s: Site, conn: Conn, schema: Schema)
    ensures var course := Settling(s, conn, 0, schema);
      && (course.Ready? && AllApplied(course.conn) <==> Smooth(s, 0))
      && (Smooth(s, 0) ==> course.site == s.(faults := Drop(s.faults, |PRAGMAS|)))
  {
    assert PRAGMAS[0] == BusyTimeout && PRAGMAS[0] in PRAGMAS;
    if Smooth(s, 0) { SmoothSettling(s, conn, 0, schema); } else { RoughSettling(s, conn, 0, schema); }
  }

  lemma CheckingKeepsAll(s: Site, conn: Conn, passes: bool, schema: Schema)
    ensures var course := Checking(s, conn, passes, schema);
      && (course.Ready? && AllApplied(course.conn) <==> AllApplied(conn) && !Faulty(s.faults) && passes)
      && (AllApplied(conn) && !Faulty(s.faults) && passes ==> course.site == Next(s))
  {
    assert PRAGMAS[0] == BusyTimeout && PRAGMAS[0] in PRAGMAS;
  }

  /** The statements of the checks: seven settings, integrity, schema. */
  const CHECKS: nat := |PRAGMAS| + 2

  lemma ChecksComplete(settled: Course, schema: Schema)
    requires settled.Ready?
    ensures var course := Comparing(Inspecting(settled, schema), schema);
      var s := settled.site;
      var undisturbed := AllApplied(settled.conn) && !Trouble(s.faults, 2) && Healthy(s.file, schema);
      && (course.Ready? && AllApplied(course.conn) <==> undisturbed)
      && (undisturbed ==> course.site == s.(faults := Drop(s.faults, 2)))
  {
    var s := settled.site;
    TroubleTwice(s.faults);
    CheckingKeepsAll(s, settled.conn, s.file.Image? && s.file.sound, schema);
    var inspected := Inspecting(settled, schema);
    if inspected.Ready? {
      var file := inspected.site.file;
      CheckingKeepsAll(inspected.site, inspected.conn, file.Image? && Matches(file.tables, schema), schema);
    }
  }

  /** Settings that were disturbed stay so, whatever the later checks do. */
  lemma AfterSettling(s: Site, settled: Course, n: nat, schema: Schema)
    requires var kept := !Trouble(s.faults, n) && s.file.Image?;
      && (settled.Ready? && AllApplied(settled.conn) <==> kept)
      && (kept ==> settled.site == s.(faults := Drop(s.faults, n)))
    ensures var course := Comparing(Inspecting(settled, schema), schema);
      var undisturbed := !Trouble(s.faults, n + 2) && Healthy(s.file, schema);
      && (course.Ready? && AllApplied(course.conn) <==> undisturbed)
      && (undisturbed ==> course.site == s.(faults := Drop(s.faults, n + 2)))
  {
    TroubleSplits(s.faults, n, 2);
    if settled.Ready? { ChecksComplete(settled, schema); }
  }

  /** A connection that comes out of the checks has all its settings exactly when the file it went in
      with is healthy and none of the nine statements fails; the file is then as it was. */
  lemma SettingsComplete(opening: Course, schema: Schema)
    requires opening.Ready?
    ensures var course := Checked(opening, schema);
      var undisturbed := !Trouble(opening.site.faults, CHECKS) && Healthy(opening.site.file, schema);
      && (course.Ready? && AllApplied(course.conn) <==> undisturbed)
      && (undisturbed ==> course.site == opening.site.(faults := Drop(opening.site.faults, CHECKS)))
  {
    SettlingKeepsAll(opening.site, opening.conn, schema);
    AfterSettling(opening.site, Settling(opening.site, opening.conn, 0, schema), |PRAGMAS|, schema);
  }

  // When a start dereferences nil

  /** Could the schema's tables be added to this file? */
  predicate Fitting(file: File, schema: Schema) {
    file.Image? && !Clashes(file.tables, schema)
  }

  /** Does a rebuild fail, if the file in place fits or not? One of its five statements does, or the
      rename does and the file is in the way. */
  predicate RebuildFails(faults: seq<bool>, stuck: seq<bool>, fits: bool) {
    Trouble(faults, STATEMENTS) || (Faulty(stuck) && !fits)
  }

  /** From setting `i` on, some setting before the last fails, and so does its rebuild. A file that is no
      database fails at the journal mode; a rebuilt file is a database that takes no second rebuild in
      place. */
  predicate PanicsFrom(faults: seq<bool>, stuck: seq<bool>, i: nat, junk: bool, fits: bool)
    decreases |PRAGMAS| - i, faults
  {
    i + 1 < |PRAGMAS| &&
    if Faulty(faults) || (junk && PRAGMAS[i] == JournalMode)
    then RebuildFails(Later(faults), stuck, fits)
         || PanicsFrom(Drop(Later(faults), STATEMENTS), Later(stuck), i + 1, false, false)
    else PanicsFrom(Later(faults), stuck, i + 1, junk, fits)
  }

  lemma RebuildExactly(s: Site, schema: Schema)
    requires schema.items != []
    ensures Rebuilt(s, schema).None? <==> RebuildFails(s.faults, s.stuck, Fitting(s.file, schema))
    ensures Rebuilt(s, schema).Some? ==>
      var t := Rebuilt(s, schema).value;
      && t.faults == Drop(s.faults, STATEMENTS) && t.stuck == Later(s.stuck)
      && t.file.Image? && !Fitting(t.file, schema)
  {
    ClashesWithItself([], schema);
    assert [] + MasterRows(schema) == MasterRows(schema);
    if s.file.Image? { ClashesWithItself(s.file.tables, schema); }
  }

  lemma {:induction false} SettlingPanics(s: Site, conn: Conn, i: nat, schema: Schema)
    requires i <= |PRAGMAS| && schema.items != []
    ensures Settling(s, conn, i, schema).Crashed? <==>
      PanicsFrom(s.faults, s.stuck, i, s.file.Junk?, Fitting(s.file, schema))
    decreases |PRAGMAS| - i
  {
    if i < |PRAGMAS| {
      if !SettingFails(s, i) {
        SettlingPanics(Next(s), Conn(conn.applied + {PRAGMAS[i]}), i + 1, schema);
      } else {
        var r := Rebuilt(Next(s), schema);
        RebuildExactly(Next(s), schema);
        if r.Some? { SettlingPanics(r.value, CREATED, i + 1, schema); }
      }
    }
  }

  lemma LaterChecksReport(settled: Course, schema: Schema)
    ensures Comparing(Inspecting(settled, schema), schema).Crashed? <==> settled.Crashed?
  {
  }

  lemma CheckedPanics(opening: Course, schema: Schema)
    requires opening.Ready? && schema.items != []
    ensures var s := opening.site;
      Checked(opening, schema).Crashed? <==> PanicsFrom(s.faults, s.stuck, 0, s.file.Junk?, Fitting(s.file, schema))
  {
    SettlingPanics(opening.site, opening.conn, 0, schema);
    LaterChecksReport(Settling(opening.site, opening.conn, 0, schema), schema);
  }

  /** The condition on file and scripts: the rebuild after a failed open, or after a setting before the
      last that failed, fails itself. */
  predicate Panics(disk: Files, path: Path, faults: seq<bool>, stuck: seq<bool>, schema: Schema) {
    if path !in disk then
      !Trouble(faults, STATEMENTS) && PanicsFrom(Drop(faults, STATEMENTS), stuck, 0, false, false)
    else if Faulty(faults) then
      RebuildFails(Later(faults), stuck, Fitting(disk[path], schema))
      || PanicsFrom(Drop(Later(faults), STATEMENTS), Later(stuck), 0, false, false)
    else PanicsFrom(Later(faults), stuck, 0, disk[path].Junk?, Fitting(disk[path], schema))
  }

  /** A start dereferences nil exactly then. A new database that cannot be made at an empty path is
      reported instead, as is a rebuild after the last setting or later. */
  lemma NilDereference(disk: Files, path: Path, faults: seq<bool>, stuck: seq<bool>, schema: Schema)
    requires schema.items != []
    ensures Connected(disk, path, faults, stuck, schema).Crashed? <==> Panics(disk, path, faults, stuck, schema)
  {
    var opening := Opening(disk, path, faults, stuck, schema);
    ClashesWithItself([], schema);
    assert [] + MasterRows(schema) == MasterRows(schema);
    if path in disk { RebuildExactly(Next(Site(disk[path], faults, stuck)), schema); }
    if opening.Ready? { CheckedPanics(opening, schema); }
  }

  /** Without any fault of a statement: exactly when the file at the path is no database and cannot be
      renamed. */
  lemma UnreadableFile(disk: Files, path: Path, stuck: seq<bool>, schema: Schema)
    ensures Connected(disk, path, [], stuck, schema).Crashed? <==>
      path in disk && disk[path].Junk? && Faulty(stuck)
  {
    NoTrouble(STATEMENTS);
    var opening := Opening(disk, path, [], stuck, schema);
    if opening.site.file.Image? {
      QuietSettling(opening.site, opening.conn, 0, schema);
    } else {
      JunkSettling(opening.site, opening.conn, schema);
    }
    LaterChecksReport(Settling(opening.site, opening.conn, 0, schema), schema);
  }

  /** It takes no more than a setting before the last that fails and, in its rebuild, one more statement. */
  lemma SettingAndRebuildFail(disk: Files, path: Path, faults: seq<bool>, stuck: seq<bool>, k: nat, schema: Schema)
    requires path in disk && disk[path].Image? && k + 1 < |PRAGMAS|
    requires !Trouble(faults, 1 + k) && Faulty(Drop(faults, 1 + k)) && Trouble(Drop(faults, 2 + k), STATEMENTS)
    ensures Connected(disk, path, faults, stuck, schema).Crashed?
  {
    TroubleSplits(faults, 1, k);
    TroubleSplits(faults, 1, k + 1);
    TroubleOnce(faults);
    var opening := Opening(disk, path, faults, stuck, schema);
    SettlingFails(opening.site, opening.conn, 0, k, schema);
    LaterChecksReport(Settling(opening.site, opening.conn, 0, schema), schema);
  }

  lemma {:induction false} SettlingFails(s: Site, conn: Conn, i: nat, n: nat, schema: Schema)
    requires s.file.Image? && i + n + 1 < |PRAGMAS|
    requires !Trouble(s.faults, n) && Faulty(Drop(s.faults, n)) && Trouble(Drop(s.faults, n + 1), STATEMENTS)
    ensures Settling(s, conn, i, schema).Crashed?
    decreases n
  {
    TroubleOnce(s.faults);
    if n > 0 {
      SettlingFails(Next(s), Conn(conn.applied + {PRAGMAS[i]}), i + 1, n - 1, schema);
    }
  }

  // When a start keeps the rows it finds

  /** Do the next `n` renames all fail? */
  predicate AllStuck(stuck: seq<bool>, n: nat) {
    n == 0 || (Faulty(stuck) && AllStuck(Later(stuck), n - 1))
  }

  lemma {:induction false} StuckSplits(stuck: seq<bool>, n: nat, m: nat)
    ensures AllStuck(stuck, n + m) <==> AllStuck(stuck, n) && AllStuck(Drop(stuck, n), m)
    ensures Drop(stuck, n + m) == Drop(Drop(stuck, n), m)
    decreases n
  {
    if n > 0 { StuckSplits(Later(stuck), n - 1, m); }
  }

  /** A database that was just created. */
  predicate Blank(file: File, schema: Schema) {
    file == Image(true, MasterRows(schema), EMPTY)
  }

  /** After `n` rebuilds of a file: `n` renames were used, and its rows are there if all of them failed,
      and none if one worked; when the last of them worked, the file is blank. */
  predicate AfterRebuilds(file: File, stuck: seq<bool>, n: nat, t: Site, schema: Schema) {
    && t.stuck == Drop(stuck, n) && (n == 0 ==> t.file == file)
    && (n > 0 && !Faulty(Drop(stuck, n - 1)) ==> Blank(t.file, schema))
    && (file.Image? && t.file.Image? ==> t.file.db == if AllStuck(stuck, n) then file.db else EMPTY)
    && (file.Junk? && t.file.Image? ==> !AllStuck(stuck, n) && t.file.db == EMPTY)
  }

  lemma RebuildsJoin(file: File, stuck: seq<bool>, n: nat, t: Site, m: nat, u: Site, schema: Schema)
    requires AfterRebuilds(file, stuck, n, t, schema) && AfterRebuilds(t.file, t.stuck, m, u, schema)
    requires t.file.Junk? ==> t.file == file && n == 0
    ensures AfterRebuilds(file, stuck, n + m, u, schema)
  {
    StuckSplits(stuck, n, m);
    if m > 0 { StuckSplits(stuck, n, m - 1); }
  }

  lemma OneRebuild(s: Site, schema: Schema)
    requires Rebuilt(s, schema).Some?
    ensures AfterRebuilds(s.file, s.stuck, 1, Rebuilt(s, schema).value, schema) && Rebuilt(s, schema).value.file.Image?
  {
    assert AllStuck(s.stuck, 1) <==> Faulty(s.stuck) by { assert AllStuck(Later(s.stuck), 0); }
    assert Drop(s.stuck, 1) == Later(s.stuck) by { assert Drop(Later(s.stuck), 0) == Later(s.stuck); }
  }

  lemma OneMoreRebuild(s: Site, m: nat, u: Site, schema: Schema)
    requires Rebuilt(s, schema).Some?
    requires var t := Rebuilt(s, schema).value; AfterRebuilds(t.file, t.stuck, m, u, schema)
    ensures AfterRebuilds(s.file, s.stuck, 1 + m, u, schema)
  {
    OneRebuild(s, schema);
    RebuildsJoin(s.file, s.stuck, 1, Rebuilt(s, schema).value, m, u, schema);
  }

  /** How many settings from `i` on fail and are answered by a rebuild. */
  function SettlingRebuilds(s: Site, i: nat, schema: Schema): nat
    requires i <= |PRAGMAS|
    decreases |PRAGMAS| - i, s
  {
    if i == |PRAGMAS| then 0
    else if !SettingFails(s, i) then SettlingRebuilds(Next(s), i + 1, schema)
    else if Rebuilt(Next(s), schema).Some? then 1 + SettlingRebuilds(Rebuilt(Next(s), schema).value, i + 1, schema)
    else 0
  }

  lemma RebuiltRows(s: Site, conn: Conn, i: nat, schema: Schema)
    requires i < |PRAGMAS| && SettingFails(s, i) && Rebuilt(Next(s), schema).Some?
    requires var t := Rebuilt(Next(s), schema).value;
      var course := Settling(t, CREATED, i + 1, schema);
      course.Ready? && AfterRebuilds(t.file, t.stuck, SettlingRebuilds(t, i + 1, schema), course.site, schema)
    ensures var course := Settling(s, conn, i, schema);
      course.Ready? && AfterRebuilds(s.file, s.stuck, SettlingRebuilds(s, i, schema), course.site, schema)
  {
    var t := Rebuilt(Next(s), schema).value;
    var course, m := Settling(t, CREATED, i + 1, schema), SettlingRebuilds(t, i + 1, schema);
    OneMoreRebuild(Next(s), m, course.site, schema);
    assert Settling(s, conn, i, schema) == course && SettlingRebuilds(s, i, schema) == 1 + m;
  }

  lemma {:induction false} SettlingRows(s: Site, conn: Conn, i: nat, schema: Schema)
    requires i <= |PRAGMAS|
    ensures var course := Settling(s, conn, i, schema);
      course.Ready? ==> AfterRebuilds(s.file, s.stuck, SettlingRebuilds(s, i, schema), course.site, schema)
    decreases |PRAGMAS| - i
  {
    if i < |PRAGMAS| {
      if !SettingFails(s, i) {
        SettlingRows(Next(s), Conn(conn.applied + {PRAGMAS[i]}), i + 1, schema);
      } else if Rebuilt(Next(s), schema).Some? {
        var t := Rebuilt(Next(s), schema).value;
        SettlingRows(t, CREATED, i + 1, schema);
        if Settling(t, CREATED, i + 1, schema).Ready? { RebuiltRows(s, conn, i, schema); }
      }
    }
  }

  lemma BlankIsHealthy(file: File, schema: Schema)
    requires Sane(schema) && Blank(file, schema)
    ensures Healthy(file, schema)
  {
    CreatedMatches(schema);
  }

  function CheckingRebuilds(s: Site, passes: bool): nat {
    if Faulty(s.faults) || !passes then 1 else 0
  }

  lemma CheckingRows(s: Site, conn: Conn, passes: bool, schema: Schema)
    requires Checking(s, conn, passes, schema).Ready?
    ensures var course := Checking(s, conn, passes, schema);
      && AfterRebuilds(s.file, s.stuck, CheckingRebuilds(s, passes), course.site, schema)
      && (s.file.Image? ==> course.site.file.Image?)
  {
    if Faulty(s.faults) || !passes { OneRebuild(Next(s), schema); }
  }

  /** How many of the later checks fail. */
  function LaterRebuilds(settled: Course, schema: Schema): nat {
    var inspected := Inspecting(settled, schema);
    if !settled.Ready? || !inspected.Ready? then 0
    else CheckingRebuilds(settled.site, settled.site.file.Image? && settled.site.file.sound)
         + CheckingRebuilds(inspected.site, inspected.site.file.Image? && Matches(inspected.site.file.tables, schema))
  }

  lemma LaterRows(settled: Course, schema: Schema)
    requires settled.Ready? && settled.site.file.Image? && Comparing(Inspecting(settled, schema), schema).Ready?
    ensures var course := Comparing(Inspecting(settled, schema), schema);
      && AfterRebuilds(settled.site.file, settled.site.stuck, LaterRebuilds(settled, schema), course.site, schema)
      && course.site.file.Image?
  {
    var s, inspected := settled.site, Inspecting(settled, schema);
    var sound, same := s.file.sound, inspected.site.file.Image? && Matches(inspected.site.file.tables, schema);
    CheckingRows(s, settled.conn, sound, schema);
    CheckingRows(inspected.site, inspected.conn, same, schema);
    var n, u := LaterRebuilds(settled, schema), Comparing(inspected, schema).site;
    assert AfterRebuilds(s.file, s.stuck, n, u, schema) by {
      RebuildsJoin(s.file, s.stuck, CheckingRebuilds(s, sound), inspected.site, CheckingRebuilds(inspected.site, same),
                   Comparing(inspected, schema).site, schema);
    }
  }

  lemma {:induction false} NoneWhileSettling(s: Site, conn: Conn, i: nat, schema: Schema)
    requires i <= |PRAGMAS|
    ensures var course := Settling(s, conn, i, schema);
      course.Ready? ==>
        && (SettlingRebuilds(s, i, schema) == 0 <==> Smooth(s, i))
        && (Smooth(s, i) ==> course.site == s.(faults := Drop(s.faults, |PRAGMAS| - i)))
    decreases |PRAGMAS| - i
  {
    if i < |PRAGMAS| && !SettingFails(s, i) {
      NoneWhileSettling(Next(s), Conn(conn.applied + {PRAGMAS[i]}), i + 1, schema);
    }
  }

  lemma NoneLater(settled: Course, schema: Schema)
    requires settled.Ready? && Comparing(Inspecting(settled, schema), schema).Ready?
    ensures LaterRebuilds(settled, schema) == 0
            <==> !Trouble(settled.site.faults, 2) && Healthy(settled.site.file, schema)
  {
    TroubleTwice(settled.site.faults);
  }

  lemma NoneInAll(s: Site, conn: Conn, schema: Schema)
    requires Checked(Ready(s, conn), schema).Ready?
    ensures var settled := Settling(s, conn, 0, schema);
      SettlingRebuilds(s, 0, schema) + LaterRebuilds(settled, schema) == 0
      <==> !Trouble(s.faults, CHECKS) && Healthy(s.file, schema)
  {
    NoneWhileSettling(s, conn, 0, schema);
    NoneLater(Settling(s, conn, 0, schema), schema);
    TroubleSplits(s.faults, |PRAGMAS|, 2);
  }

  lemma RowsAfter(file: File, stuck: seq<bool>, n: nat, settled: Course, schema: Schema)
    requires settled.Ready? && settled.site.file.Image? && AfterRebuilds(file, stuck, n, settled.site, schema)
    requires Comparing(Inspecting(settled, schema), schema).Ready?
    ensures var course := Comparing(Inspecting(settled, schema), schema);
      && AfterRebuilds(file, stuck, n + LaterRebuilds(settled, schema), course.site, schema)
      && course.site.file.Image?
  {
    LaterRows(settled, schema);
    RebuildsJoin(file, stuck, n, settled.site, LaterRebuilds(settled, schema),
                 Comparing(Inspecting(settled, schema), schema).site, schema);
  }

  /** How many checks fail from the settings on. */
  function RebuildsFrom(opening: Course, schema: Schema): nat {
    if !opening.Ready? then 0
    else SettlingRebuilds(opening.site, 0, schema)
         + LaterRebuilds(Settling(opening.site, opening.conn, 0, schema), schema)
  }

  /** And how many in all, from the opening on. */
  function Rebuilds(disk: Files, path: Path, faults: seq<bool>, stuck: seq<bool>, schema: Schema): nat {
    (if path in disk && Faulty(faults) then 1 else 0) + RebuildsFrom(Opening(disk, path, faults, stuck, schema), schema)
  }

  lemma OpenedRows(disk: Files, path: Path, faults: seq<bool>, stuck: seq<bool>, schema: Schema)
    requires path in disk && Opening(disk, path, faults, stuck, schema).Ready?
    ensures var t, k := Opening(disk, path, faults, stuck, schema).site, if Faulty(faults) then 1 else 0;
      && AfterRebuilds(disk[path], stuck, k, t, schema)
      && (t.file.Junk? ==> t.file == disk[path] && k == 0)
      && (k == 0 ==> t == Site(disk[path], Later(faults), stuck))
  {
    if Faulty(faults) { OneRebuild(Next(Site(disk[path], faults, stuck)), schema); }
  }

  lemma RowsSince(opening: Course, schema: Schema)
    requires opening.Ready? && Checked(opening, schema).Ready?
    ensures var s, course := opening.site, Checked(opening, schema);
      AfterRebuilds(s.file, s.stuck, RebuildsFrom(opening, schema), course.site, schema) && course.site.file.Image?
  {
    var s, settled := opening.site, Settling(opening.site, opening.conn, 0, schema);
    SettlingRows(s, opening.conn, 0, schema);
    SettledIsUsable(s, opening.conn, 0, schema);
    RowsAfter(s.file, s.stuck, SettlingRebuilds(s, 0, schema), settled, schema);
  }

  lemma RowsFrom(file: File, stuck: seq<bool>, k: nat, opening: Course, schema: Schema)
    requires opening.Ready? && AfterRebuilds(file, stuck, k, opening.site, schema)
    requires opening.site.file.Junk? ==> opening.site.file == file && k == 0
    requires Checked(opening, schema).Ready?
    ensures var course := Checked(opening, schema);
      AfterRebuilds(file, stuck, k + RebuildsFrom(opening, schema), course.site, schema) && course.site.file.Image?
  {
    var s, m, u := opening.site, RebuildsFrom(opening, schema), Checked(opening, schema).site;
    RowsSince(opening, schema);
    assert AfterRebuilds(file, stuck, k + m, u, schema) by { RebuildsJoin(file, stuck, k, s, m, u, schema); }
  }

  lemma UndisturbedStart(disk: Files, path: Path, faults: seq<bool>, stuck: seq<bool>, schema: Schema)
    requires path in disk && Connected(disk, path, faults, stuck, schema).Ready?
    ensures Rebuilds(disk, path, faults, stuck, schema) == 0
            <==> Healthy(disk[path], schema) && !Trouble(faults, 1 + CHECKS)
  {
    var opening := Opening(disk, path, faults, stuck, schema);
    TroubleOnce(faults);
    TroubleSplits(faults, 1, CHECKS);
    NoneInAll(opening.site, opening.conn, schema);
  }

  /** A start that gets a connection keeps the file it finds exactly when that is healthy and none of its
      ten statements fails. Otherwise some checks fail, and it goes on with the rows it found exactly
      when the rename failed for all of them; a rename that worked last leaves a blank database. */
  lemma KeptExactlyIfHealthy(disk: Files, path: Path, faults: seq<bool>, stuck: seq<bool>, schema: Schema)
    requires path in disk
    ensures var course, n := Connected(disk, path, faults, stuck, schema), Rebuilds(disk, path, faults, stuck, schema);
      course.Ready? ==>
        && (n == 0 <==> Healthy(disk[path], schema) && !Trouble(faults, 1 + CHECKS))
        && course.site.file.Image? && AfterRebuilds(disk[path], stuck, n, course.site, schema)
  {
    if Connected(disk, path, faults, stuck, schema).Ready? {
      UndisturbedStart(disk, path, faults, stuck, schema);
      OpenedRows(disk, path, faults, stuck, schema);
      RowsFrom(disk[path], stuck, if Faulty(faults) then 1 else 0, Opening(disk, path, faults, stuck, schema), schema);
    }
  }

  // When the schema is not the expected one

  /** Apart from one case a connection has the expected schema: the schema check failed, the rename
      failed too, and the tables of the file and of the schema together do not match. */
  lemma MismatchExactly(opening: Course, schema: Schema)
    requires Sane(schema) && opening.Ready?
    ensures var compared := Inspecting(Settling(opening.site, opening.conn, 0, schema), schema);
      Comparing(compared, schema).Ready? ==>
        && Checked(opening, schema) == Comparing(compared, schema) && compared.Ready? && compared.site.file.Image?
        && MismatchAfter(compared.site, Comparing(compared, schema).site.file, schema)
  {
    var compared := Inspecting(Settling(opening.site, opening.conn, 0, schema), schema);
    if Comparing(compared, schema).Ready? {
      SettledIsUsable(opening.site, opening.conn, 0, schema);
      MismatchOfCheck(compared.site, compared.conn, schema);
    }
  }

  /** The tables do not match exactly if the schema check of `s` failed, its rename failed too, and old
      and new tables together do not match. */
  ghost predicate MismatchAfter(s: Site, file: File, schema: Schema)
    requires s.file.Image?
  {
    && file.Image?
    && (!Matches(file.tables, schema) <==>
          && (Faulty(s.faults) || !Matches(s.file.tables, schema)) && Faulty(s.stuck)
          && !Matches(s.file.tables + MasterRows(schema), schema))
  }

  lemma MismatchOfCheck(s: Site, conn: Conn, schema: Schema)
    requires Sane(schema) && s.file.Image?
    ensures var course := Checking(s, conn, Matches(s.file.tables, schema), schema);
      course.Ready? ==> MismatchAfter(s, course.site.file, schema)
  {
    CreatedMatches(schema);
  }

  lemma {:induction false} NoTrouble(n: nat)
    ensures !Trouble([], n) && Drop([], n) == []
  {
    if n > 0 { NoTrouble(n - 1); }
  }

  /** The file at the path is sound but has another schema, and its rename fails: without any fault of a
      statement that is the one start that hands out a wrong schema, unless the two happen to match. */
  predicate HandsOutMismatch(disk: Files, path: Path, stuck: seq<bool>, schema: Schema) {
    && path in disk && disk[path].Image? && disk[path].sound && !Matches(disk[path].tables, schema)
    && Faulty(stuck) && !Matches(disk[path].tables + MasterRows(schema), schema)
  }

  /** Undisturbed settings leave the file to the later checks. */
  lemma {:induction false} QuietSettling(s: Site, conn: Conn, i: nat, schema: Schema)
    requires s.faults == [] && s.file.Image? && i <= |PRAGMAS|
    ensures var course := Settling(s, conn, i, schema);
      course.Ready? && course.site == s
    decreases |PRAGMAS| - i
  {
    if i < |PRAGMAS| {
      assert Next(s) == s;
      QuietSettling(s, Conn(conn.applied + {PRAGMAS[i]}), i + 1, schema);
    }
  }

  /** A file that is no database comes to light at the journal mode, and only a rename gets rid of it. */
  lemma JunkSettling(s: Site, conn: Conn, schema: Schema)
    requires s.faults == [] && s.file.Junk?
    ensures var course := Settling(s, conn, 0, schema);
      && (course.Crashed? <==> Faulty(s.stuck)) && (course.Ready? <==> !Faulty(s.stuck))
      && (course.Ready? ==> course.site.faults == [] && Blank(course.site.file, schema))
  {
    NoTrouble(STATEMENTS);
    assert Next(s) == s && !SettingFails(s, 0) && SettingFails(s, 1);
    var r := Rebuilt(s, schema);
    assert Settling(s, conn, 0, schema) == Settling(s, Conn(conn.applied + {PRAGMAS[0]}), 1, schema);
    if r.Some? { QuietSettling(r.value, CREATED, 2, schema); }
  }

  lemma QuietCompare(s: Site, conn: Conn, schema: Schema)
    requires Sane(schema) && s.faults == [] && s.file.Image?
    requires Checking(s, conn, Matches(s.file.tables, schema), schema).Ready?
    ensures var tables := s.file.tables;
      var after := Checking(s, conn, Matches(tables, schema), schema).site.file.tables;
      && (Matches(after, schema) <==>
            Matches(tables, schema) || !Faulty(s.stuck) || Matches(tables + MasterRows(schema), schema))
      && (Matches(tables, schema) || !Faulty(s.stuck) || !Clashes(tables, schema))
  {
    NoTrouble(STATEMENTS);
    CreatedMatches(schema);
  }

  lemma QuietInspect(s: Site, conn: Conn, schema: Schema)
    requires s.faults == [] && s.file.Image? && Checking(s, conn, s.file.sound, schema).Ready?
    ensures var t := Checking(s, conn, s.file.sound, schema).site;
      && t.faults == [] && t.file.Image?
      && (s.file.sound ==> t == s)
      && (!s.file.sound ==> Blank(t.file, schema) || t.file.tables == s.file.tables + MasterRows(schema))
  {
    NoTrouble(STATEMENTS);
  }

  /** What the later checks make of the tables, without faults. */
  lemma QuietChecks(settled: Course, schema: Schema)
    requires Sane(schema) && schema.items != []
    requires settled.Ready? && settled.site.faults == [] && settled.site.file.Image?
    requires Comparing(Inspecting(settled, schema), schema).Ready?
    ensures var s := settled.site;
      Matches(Comparing(Inspecting(settled, schema), schema).site.file.tables, schema) <==>
        !(s.file.sound && !Matches(s.file.tables, schema) && Faulty(s.stuck)
          && !Matches(s.file.tables + MasterRows(schema), schema))
  {
    var inspected := Inspecting(settled, schema);
    QuietInspect(settled.site, settled.conn, schema);
    QuietCompare(inspected.site, inspected.conn, schema);
    CreatedMatches(schema);
    ClashesWithItself(settled.site.file.tables, schema);
  }

  /** Without any fault of a statement, a connection has the wrong schema exactly in that case. */
  lemma MismatchWithoutFaults(disk: Files, path: Path, stuck: seq<bool>, schema: Schema)
    requires Sane(schema) && schema.items != []
    ensures var course := Connected(disk, path, [], stuck, schema);
      course.Ready? ==>
        course.site.file.Image?
        && (!Matches(course.site.file.tables, schema) <==> HandsOutMismatch(disk, path, stuck, schema))
  {
    if Connected(disk, path, [], stuck, schema).Ready? {
      ConnectedIsUsable(disk, path, [], stuck, schema);
      MismatchOfReady(disk, path, stuck, schema);
    }
  }

  lemma MismatchOfReady(disk: Files, path: Path, stuck: seq<bool>, schema: Schema)
    requires Sane(schema) && schema.items != [] && Connected(disk, path, [], stuck, schema).Ready?
    ensures var file := Connected(disk, path, [], stuck, schema).site.file;
      !Matches(file.tables, schema) <==> HandsOutMismatch(disk, path, stuck, schema)
  {
    NoTrouble(STATEMENTS);
    CreatedMatches(schema);
    var opening := Opening(disk, path, [], stuck, schema);
    if opening.site.file.Image? {
      QuietSettling(opening.site, opening.conn, 0, schema);
    } else {
      JunkSettling(opening.site, opening.conn, schema);
    }
    QuietChecks(Settling(opening.site, opening.conn, 0, schema), schema);
  }

  /** Such a start: another program's sound database, whose table names do not clash, and a rename that
      fails. The service gets a connection, and the schema is not the expected one. */
  lemma ForeignDatabase(disk: Files, path: Path, stuck: seq<bool>, schema: Schema)
    requires Sane(schema) && schema.items != [] && path in disk && disk[path].Image? && disk[path].sound
    requires SqlText.Listed(disk[path].tables, SqlText.SEQUENCE)
    requires SqlText.Besides(disk[path].tables, SqlText.SEQUENCE) != []
    requires !Matches(disk[path].tables, schema) && !Clashes(disk[path].tables, schema) && Faulty(stuck)
    ensures var course := Connected(disk, path, [], stuck, schema);
      course.Ready? && !Matches(course.site.file.tables, schema)
  {
    NoTrouble(STATEMENTS);
    LeftoverTablesShow(schema, disk[path].tables);
    var opening := Opening(disk, path, [], stuck, schema);
    QuietSettling(opening.site, opening.conn, 0, schema);
    MismatchWithoutFaults(disk, path, stuck, schema);
  }

  // Without faults

  /** A healthy database is opened with all its settings and left where it is. */
  lemma HealthyStart(disk: Files, path: Path, stuck: seq<bool>, schema: Schema)
    requires path in disk && Healthy(disk[path], schema)
    ensures var course := Connected(disk, path, [], stuck, schema);
      course.Ready? && AllApplied(course.conn) && course.site == Site(disk[path], [], stuck)
  {
    NoTrouble(CHECKS);
    SettingsComplete(Opening(disk, path, [], stuck, schema), schema);
  }

  /** Anything else is replaced, or created, without fail. */
  lemma QuietStart(disk: Files, path: Path, schema: Schema)
    requires Sane(schema)
    ensures var course := Connected(disk, path, [], [], schema);
      course.Ready? && course.site.faults == []
  {
    NoTrouble(STATEMENTS);
    var opening := Opening(disk, path, [], [], schema);
    QuietSettled(opening.site, opening.conn, 0, schema);
  }

  lemma {:induction false} QuietSettled(s: Site, conn: Conn, i: nat, schema: Schema)
    requires s.faults == [] && s.stuck == [] && i <= |PRAGMAS|
    ensures var course := Settling(s, conn, i, schema);
      course.Ready? && course.site.faults == [] && course.site.stuck == []
    decreases |PRAGMAS| - i
  {
    NoTrouble(STATEMENTS);
    if i < |PRAGMAS| {
      if !SettingFails(s, i) {
        QuietSettled(Next(s), Conn(conn.applied + {PRAGMAS[i]}), i + 1, schema);
      } else {
        QuietSettled(Rebuilt(Next(s), schema).value, CREATED, i + 1, schema);
      }
    }
  }

  /** The shortest script of statements that does it, whatever the renames do: opening fails, and so does
      opening the replacement. */
  lemma TwoFaults(disk: Files, path: Path, faults: seq<bool>, stuck: seq<bool>, schema: Schema)
    requires path in disk && |faults| > 1 && faults[0] && faults[1]
    ensures Connected(disk, path, faults, stuck, schema).Crashed?
  {
  }

  lemma PlainStarts(disk: Files, path: Path, faults: seq<bool>, stuck: seq<bool>, schema: Schema)
    requires Sane(schema)
    ensures var course := Connected(disk, path, faults, stuck, schema);
      && (faults == [] && stuck == [] ==> course.Ready? && course.site.faults == [])
      && (faults == [] && path in disk && Healthy(disk[path], schema) ==>
            course.Ready? && AllApplied(course.conn) && course.site == Site(disk[path], [], stuck))
      && (faults == [] ==> (course.Crashed? <==> path in disk && disk[path].Junk? && Faulty(stuck)))
      && (path in disk && |faults| > 1 && faults[0] && faults[1] ==> course.Crashed?)
  {
    if faults == [] { UnreadableFile(disk, path, stuck, schema); }
    if faults == [] && stuck == [] { QuietStart(disk, path, schema); }
    if faults == [] && path in disk && Healthy(disk[path], schema) { HealthyStart(disk, path, stuck, schema); }
    if path in disk && |faults| > 1 && faults[0] && faults[1] { TwoFaults(disk, path, faults, stuck, schema); }
  }

  // The settings again, on the script of a whole start

  /** No statement of the checks fails, and none of a new database if there is one to make first. A file
      that opens must also be healthy; one that does not open must have been renamed, or else fit, and
      be healthy with the tables added. */
  predicate Undisturbed(disk: Files, path: Path, faults: seq<bool>, stuck: seq<bool>, schema: Schema) {
    if path !in disk then !Trouble(faults, STATEMENTS + CHECKS)
    else if !Faulty(faults) then !Trouble(Later(faults), CHECKS) && Healthy(disk[path], schema)
    else
      && !Trouble(Later(faults), STATEMENTS + CHECKS)
      && (Faulty(stuck) ==>
            && Fitting(disk[path], schema)
            && Healthy(disk[path].(tables := disk[path].tables + MasterRows(schema)), schema))
  }

  /** A start gets a connection with all its settings exactly then. */
  lemma AllSettings(disk: Files, path: Path, faults: seq<bool>, stuck: seq<bool>, schema: Schema)
    requires Sane(schema)
    ensures var course := Connected(disk, path, faults, stuck, schema);
      course.Ready? && AllApplied(course.conn) <==> Undisturbed(disk, path, faults, stuck, schema)
  {
    var opening := Opening(disk, path, faults, stuck, schema);
    TroubleSplits(faults, STATEMENTS, CHECKS);
    TroubleSplits(Later(faults), STATEMENTS, CHECKS);
    CreatedMatches(schema);
    if opening.Ready? { SettingsComplete(opening, schema); }
  }

  /** A start that loses one: the first setting fails once. The service runs on an empty database, and
      without the busy timeout. */
  lemma BusyTimeoutLost(disk: Files, path: Path, schema: Schema)
    requires Sane(schema) && path in disk
    ensures var course := Connected(disk, path, [false, true], [], schema);
      course.Ready? && BusyTimeout !in course.conn.applied
  {
    var s := Site(disk[path], [true], []);
    assert Opening(disk, path, [false, true], [], schema) == Ready(s, Conn({}));
    assert Next(s).faults == [];
    NoTrouble(STATEMENTS);
    var t := Rebuilt(Next(s), schema).value;
    assert Settling(s, Conn({}), 0, schema) == Settling(t, CREATED, 1, schema);
    QuietSettled(t, CREATED, 1, schema);
    LostSettings(t, CREATED, 1, schema);
    LostIsLost(Settling(t, CREATED, 1, schema), schema);
  }

  lemma LostIsLost(settled: Course, schema: Schema)
    requires settled.Ready? && settled.site.faults == [] && settled.site.stuck == []
    requires BusyTimeout !in settled.conn.applied
    ensures var course := Comparing(Inspecting(settled, schema), schema);
      course.Ready? && BusyTimeout !in course.conn.applied
  {
    NoTrouble(STATEMENTS);
  }

  // What a start makes of the whole disk

  /** The disk after a rebuild that worked, `s` being the site it began with. */
  function RebuiltDisk(disk: Files, path: Path, stamp: string, s: Site, schema: Schema): Files
    requires Rebuilt(s, schema).Some?
  {
    var shelved := if path in disk && !Faulty(s.stuck) then MovedAway(disk, path, stamp) else disk;
    shelved[path := Rebuilt(s, schema).value.file]
  }

  /** And after the settings from `i` on; the rebuild for setting `k` uses timestamp `1 + k`. */
  function SettlingDisk(disk: Files, path: Path, stamp: nat -> string, s: Site, i: nat, schema: Schema): Files
    requires i <= |PRAGMAS|
    decreases |PRAGMAS| - i, s
  {
    if i == |PRAGMAS| then disk
    else if !SettingFails(s, i) then SettlingDisk(disk, path, stamp, Next(s), i + 1, schema)
    else if Rebuilt(Next(s), schema).Some? then
      SettlingDisk(RebuiltDisk(disk, path, stamp(1 + i), Next(s), schema), path, stamp,
                   Rebuilt(Next(s), schema).value, i + 1, schema)
    else disk
  }

  /** Is the file there, does it open, and do the later checks pass? */
  predicate SettingsOnly(disk: Files, path: Path, faults: seq<bool>, stuck: seq<bool>, schema: Schema) {
    && path in disk && !Faulty(faults)
    && LaterRebuilds(Settling(Site(disk[path], Later(faults), stuck), Conn({}), 0, schema), schema) == 0
  }

  /** The disk after such a start. */
  function AfterSettings(disk: Files, path: Path, stamp: nat -> string, faults: seq<bool>, stuck: seq<bool>,
                         schema: Schema): Files
    requires path in disk
  {
    SettlingDisk(disk, path, stamp, Site(disk[path], Later(faults), stuck), 0, schema)
  }

  lemma {:induction false} QuietDisk(disk: Files, path: Path, stamp: nat -> string, s: Site, i: nat, schema: Schema)
    requires s.faults == [] && s.file.Image? && i <= |PRAGMAS|
    ensures SettlingDisk(disk, path, stamp, s, i, schema) == disk
    decreases |PRAGMAS| - i
  {
    if i < |PRAGMAS| {
      assert Next(s) == s;
      QuietDisk(disk, path, stamp, s, i + 1, schema);
    }
  }

  /** The first two settings fail, and nothing else. */
  const TWO_SETTINGS: seq<bool> := [false, true, false, false, false, false, false, true]

  lemma TwoRebuilds(file: File, schema: Schema)
    ensures var s := Site(file, TWO_SETTINGS[1..], []);
      var blank := Image(true, MasterRows(schema), EMPTY);
      && Next(Site(file, TWO_SETTINGS, [])).faults == s.faults && SettingFails(s, 0)
      && Rebuilt(Next(s), schema) == Some(Site(blank, [true], []))
      && SettingFails(Site(blank, [true], []), 1)
      && Rebuilt(Next(Site(blank, [true], [])), schema) == Some(Site(blank, [], []))
  {
    var faults := TWO_SETTINGS[2..];
    assert Later(TWO_SETTINGS) == TWO_SETTINGS[1..] && Later(TWO_SETTINGS[1..]) == faults;
    TroubleUnfolds(faults);
    assert Drop(faults, STATEMENTS) == [true];
    NoTrouble(STATEMENTS);
  }

  /** A start that loses the file it finds: the plain backup name is taken, the first two settings fail,
      and their backups fall into one second, so that the second overwrites the first. */
  lemma LosingStart(disk: Files, path: Path, stamp: nat -> string, schema: Schema)
    requires Sane(schema) && path in disk && path + ".bak" in disk && stamp(1) == stamp(2)
    requires !Blank(disk[path], schema) && forall p :: p in disk && p != path ==> disk[p] != disk[path]
    ensures Connected(disk, path, TWO_SETTINGS, [], schema).Ready?
    ensures SettingsOnly(disk, path, TWO_SETTINGS, [], schema)
    ensures var after := AfterSettings(disk, path, stamp, TWO_SETTINGS, [], schema);
      forall p :: p in after ==> after[p] != disk[path]
  {
    var blank := Image(true, MasterRows(schema), EMPTY);
    var s, t, u := Site(disk[path], TWO_SETTINGS[1..], []), Site(blank, [true], []), Site(blank, [], []);
    TwoRebuilds(disk[path], schema);
    assert Settling(s, Conn({}), 0, schema) == Settling(t, CREATED, 1, schema) == Settling(u, CREATED, 2, schema);
    QuietSettling(u, CREATED, 2, schema);
    BlankIsHealthy(blank, schema);
    SameSecondLosesData(disk, path, stamp(1), blank);
    var once := RebuiltDisk(disk, path, stamp(1), Next(s), schema);
    var twice := RebuiltDisk(once, path, stamp(2), Next(t), schema);
    assert SettlingDisk(disk, path, stamp, s, 0, schema) == SettlingDisk(once, path, stamp, t, 1, schema);
    assert SettlingDisk(once, path, stamp, t, 1, schema) == SettlingDisk(twice, path, stamp, u, 2, schema);
    QuietDisk(twice, path, stamp, u, 2, schema);
  }
}
