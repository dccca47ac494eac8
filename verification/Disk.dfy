/** Database files, the backups made of them, and the creation of a new one. */
module Disk {
  import opened Basics
  import opened Tables
  import opened Store
  import SqlText
  import Text

  type Path = string

  /** A file SQLite cannot read, or a database: what `PRAGMA integrity_check` would find, the text of
      each table in sqlite_master, and the rows. */
  datatype File = Junk(bytes: nat) | Image(sound: bool, tables: seq<string>, db: Db)

  type Files = map<Path, File>

  const EMPTY := Db(map[], map[], map[], map[], 0, {}, {}, {}, map[])

  // Backups

  function StampName(path: Path, stamp: string): Path {
    path + "-" + stamp + ".bak"
  }

  function BackupName(disk: Files, path: Path, stamp: string): Path {
    if path + ".bak" in disk then StampName(path, stamp) else path + ".bak"
  }

  /** The disk after a successful rename, which replaces whatever had the new name. */
  function MovedAway(disk: Files, path: Path, stamp: string): Files
    requires path in disk
  {
    (disk - {path})[BackupName(disk, path, stamp) := disk[path]]
  }

  lemma StampNamesDiffer(path: Path, s: string, t: string)
    ensures StampName(path, s) == StampName(path, t) ==> s == t
    ensures StampName(path, s) != path && StampName(path, s) != path + ".bak" && path + ".bak" != path
  {
    var a, b := StampName(path, s), StampName(path, t);
    assert |path + ".bak"| == |path| + 4 && |a| == |path| + |s| + 5 && |b| == |path| + |t| + 5;
    if a == b {
      assert s == a[|path| + 1..|path| + 1 + |s|];
      assert t == b[|path| + 1..|path| + 1 + |t|];
    }
  }

  /** A rename keeps every file, under its own name or the backup's, exactly when the backup's name
      was free; otherwise the one file that had the name is gone. */
  lemma BackupKeepsAllBut(disk: Files, path: Path, stamp: string)
    requires path in disk
    ensures var name, after := BackupName(disk, path, stamp), MovedAway(disk, path, stamp);
      && after[name] == disk[path]
      && (forall p :: p in disk && p != path && p != name ==> p in after && after[p] == disk[p])
      && after.Keys == disk.Keys - {path} + {name}
      && (|after| == |disk| <==> name !in disk)
  {
    StampNamesDiffer(path, stamp, stamp);
    var name, after := BackupName(disk, path, stamp), MovedAway(disk, path, stamp);
    if name in disk {
      assert after.Keys == disk.Keys - {path};
    } else {
      assert after.Keys == disk.Keys - {path} + {name};
    }
    assert |disk.Keys - {path}| == |disk.Keys| - 1;
    assert |after| == |after.Keys| && |disk| == |disk.Keys|;
  }

  /** Timestamps have whole seconds. Two backups within one second, the plain name being taken, use the
      same name: the first file moved away, here the user's data, is overwritten by the second. */
  lemma SameSecondLosesData(disk: Files, path: Path, stamp: string, rebuilt: File)
    requires path in disk && path + ".bak" in disk && rebuilt != disk[path]
    requires forall p :: p in disk && p != path ==> disk[p] != disk[path]
    ensures var once := MovedAway(disk, path, stamp);
      var twice := MovedAway(once[path := rebuilt], path, stamp);
      once[StampName(path, stamp)] == disk[path] && forall p :: p in twice ==> twice[p] != disk[path]
  {
    StampNamesDiffer(path, stamp, stamp);
    var once := MovedAway(disk, path, stamp);
    var again := once[path := rebuilt];
    assert BackupName(again, path, stamp) == StampName(path, stamp);
    assert forall p :: p in once && p != StampName(path, stamp) ==> p in disk && p != path && once[p] == disk[p];
  }

  // What backups must preserve

  /** Steps of one start at which a backup can be made, each with its own timestamp. */
  const SITES: nat := 10

  ghost predicate Distinct(stamp: nat -> string) {
    forall i: nat, j: nat :: i < j < SITES ==> stamp(i) != stamp(j)
  }

  ghost predicate NamesFree(disk: Files, path: Path, stamp: nat -> string, from: nat) {
    forall j: nat :: from <= j < SITES ==> StampName(path, stamp(j)) !in disk
  }

  ghost predicate Survives(disk: Files, path: Path, f: File) {
    exists p :: p in disk && p != path && disk[p] == f
  }

  /** Every file that was on the disk at the start, other than the database, is as it was, and every
      file moved away exists under another name. */
  ghost predicate Kept(disk: Files, path: Path, origin: Files, moved: seq<File>) {
    && (forall p :: p in origin && p != path ==> p in disk && disk[p] == origin[p])
    && (forall f :: f in moved ==> Survives(disk, path, f))
  }

  /** The database found at the start is in place as it was, or it was the first to be moved. */
  ghost predicate Shelved(disk: Files, path: Path, origin: Files, moved: seq<File>) {
    path in origin ==> if moved == [] then path in disk && disk[path] == origin[path] else moved[0] == origin[path]
  }

  lemma MoveKeeps(disk: Files, path: Path, stamp: nat -> string, from: nat, origin: Files, moved: seq<File>)
    requires Kept(disk, path, origin, moved) && NamesFree(disk, path, stamp, from) && Distinct(stamp)
    requires from < SITES && path in disk
    ensures var after := MovedAway(disk, path, stamp(from));
      Kept(after, path, origin, moved + [disk[path]]) && NamesFree(after, path, stamp, from + 1)
  {
    var name, after := BackupName(disk, path, stamp(from)), MovedAway(disk, path, stamp(from));
    StampNamesDiffer(path, stamp(from), stamp(from));
    assert name !in disk && name != path;
    forall j: nat | from + 1 <= j < SITES
      ensures StampName(path, stamp(j)) !in after
    {
      StampNamesDiffer(path, stamp(j), stamp(from));
    }
    forall f | f in moved + [disk[path]]
      ensures Survives(after, path, f)
    {
      if f in moved {
        var p :| p in disk && p != path && disk[p] == f;
        assert p in after && after[p] == f;
      } else {
        assert name in after && after[name] == f;
      }
    }
  }

  /** Writing the database file disturbs no other. */
  lemma RefillKeeps(disk: Files, path: Path, origin: Files, moved: seq<File>, file: File)
    requires Kept(disk, path, origin, moved)
    ensures Kept(disk[path := file], path, origin, moved)
  {
    forall f | f in moved
      ensures Survives(disk[path := file], path, f)
    {
      var p :| p in disk && p != path && disk[p] == f;
      assert p in disk[path := file];
    }
  }

  lemma WriteKeeps(disk: Files, path: Path, stamp: nat -> string, from: nat, origin: Files, moved: seq<File>,
                   file: File)
    requires Kept(disk, path, origin, moved) && NamesFree(disk, path, stamp, from)
    ensures Kept(disk[path := file], path, origin, moved) && NamesFree(disk[path := file], path, stamp, from)
  {
    RefillKeeps(disk, path, origin, moved, file);
    forall j: nat | from <= j < SITES
      ensures StampName(path, stamp(j)) !in disk[path := file]
    {
      StampNamesDiffer(path, stamp(j), stamp(j));
    }
  }

  // The schema

  /** The schema file as statements and layout, where SQLite lists its own table among the others, and
      how it reads the name a statement defines. */
  datatype Schema = Schema(items: seq<SqlText.Item>, trailer: seq<string>, sequenceAt: Option<nat>,
                           tableName: string -> string)

  ghost predicate Sane(schema: Schema) {
    && SqlText.WellFormed(schema.items, schema.trailer, SqlText.SEQUENCE)
    && (schema.sequenceAt.Some? ==> schema.sequenceAt.value <= |schema.items|)
  }

  /** What sqlite_master holds after the schema file was executed. */
  function MasterRows(schema: Schema): seq<string> {
    var stmts := SqlText.Statements(schema.items);
    match schema.sequenceAt
    case None => stmts
    case Some(k) => if k <= |stmts| then stmts[..k] + [SqlText.SEQUENCE_ROW] + stmts[k..] else stmts
  }

  /** The comparison made at every start. */
  predicate Matches(tables: seq<string>, schema: Schema) {
    SqlText.NormalizeSQL(SqlText.Lines(tables)) == SqlText.NormalizeSQL(SqlText.Source(schema.items, schema.trailer))
  }

  /** The comparison, as what it means: the same words in the same order, SQLite's own table aside. It
      says nothing of comments, layout, letter case, and the place of that table. */
  lemma MatchesExactly(tables: seq<string>, schema: Schema)
    requires Sane(schema) && SqlText.Listed(tables, SqlText.SEQUENCE)
    ensures Matches(tables, schema) <==>
      SqlText.AllWords(SqlText.Besides(tables, SqlText.SEQUENCE)) == SqlText.AllWords(SqlText.Statements(schema.items))
  {
    SqlText.SchemaRecognised(schema.items, schema.trailer, tables);
  }

  /** The rows of a database that was just made are the schema's tables and at most SQLite's own. */
  lemma RowsAreStatements(stmts: seq<string>, sequenceAt: Option<nat>, row: string, p: string)
    requires SqlText.Removable(p) && SqlText.Spells(row, p) && forall s :: s in stmts ==> SqlText.Ordinary(s, p)
    requires sequenceAt.Some? ==> sequenceAt.value <= |stmts|
    ensures var rows := match sequenceAt case None => stmts case Some(k) => stmts[..k] + [row] + stmts[k..];
      SqlText.Listed(rows, p) && SqlText.Besides(rows, p) == stmts
  {
    SqlText.BesidesOrdinary(stmts, p);
    if sequenceAt.Some? {
      var a, b := stmts[..sequenceAt.value], stmts[sequenceAt.value..];
      assert stmts == a + b && a + [row] + b == a + ([row] + b);
      SqlText.BesidesConcat(a, b, p);
      SqlText.BesidesConcat(a, [row] + b, p);
      SqlText.BesidesHead(row, b, p);
    }
  }

  lemma MasterRowsListed(schema: Schema)
    requires Sane(schema)
    ensures SqlText.Listed(MasterRows(schema), SqlText.SEQUENCE)
    ensures SqlText.Besides(MasterRows(schema), SqlText.SEQUENCE) == SqlText.Statements(schema.items)
  {
    SqlText.SequenceShape();
    SqlText.SequenceRowSpells();
    SqlText.OrdinaryStatements(schema.items, schema.trailer, SqlText.SEQUENCE);
    RowsAreStatements(SqlText.Statements(schema.items), schema.sequenceAt, SqlText.SEQUENCE_ROW, SqlText.SEQUENCE);
  }

  /** A database created from the schema file passes the comparison when it is opened again. */
  lemma CreatedMatches(schema: Schema)
    requires Sane(schema)
    ensures Matches(MasterRows(schema), schema)
  {
    MasterRowsListed(schema);
    SqlText.SchemaRoundTrip(schema.items, schema.trailer, MasterRows(schema));
  }

  lemma OrdinaryHasWords(stmt: string, p: string)
    requires SqlText.Ordinary(stmt, p)
    ensures SqlText.Words(SqlText.Clean(stmt)) != []
  {
    var s := SqlText.Clean(stmt);
    var bare := Text.ReplaceAll(s, ";", "");
    assert !(";" <= s) by { assert (";")[0] != s[0]; }
    assert bare == [s[0]] + Text.ReplaceAll(s[1..], ";", "");
    assert !("\n" <= bare) by { assert ("\n")[0] != bare[0]; }
    assert Text.ReplaceAll(bare, "\n", " ")[0] == 'c';
  }

  lemma {:induction false} BesidesIn(tables: seq<string>, p: string)
    ensures forall s :: s in SqlText.Besides(tables, p) ==> s in tables && !SqlText.Spells(s, p)
  {
    if tables != [] { BesidesIn(tables[1..], p); }
  }

  /** A rebuild after a rename that failed adds the tables to the old file. Any table that was there,
      apart from SQLite's own, shows: the result matches exactly when there was none. */
  lemma LeftoverTablesShow(schema: Schema, extra: seq<string>)
    requires Sane(schema) && SqlText.Listed(extra, SqlText.SEQUENCE)
    ensures Matches(extra + MasterRows(schema), schema) <==> SqlText.Besides(extra, SqlText.SEQUENCE) == []
  {
    var others := SqlText.Besides(extra, SqlText.SEQUENCE);
    MasterRowsListed(schema);
    MatchesExactly(extra + MasterRows(schema), schema);
    SqlText.BesidesConcat(extra, MasterRows(schema), SqlText.SEQUENCE);
    SqlText.AllWordsConcat(others, SqlText.Statements(schema.items));
    BesidesIn(extra, SqlText.SEQUENCE);
    if others != [] {
      assert others[0] in others;
      OrdinaryHasWords(others[0], SqlText.SEQUENCE);
      assert |SqlText.AllWords(others)| > 0;
    }
  }

  lemma MiddleDiffers<T>(a: seq<T>, x: seq<T>, y: seq<T>, b: seq<T>)
    ensures a + (x + b) == a + (y + b) <==> x == y
  {
    if a + (x + b) == a + (y + b) {
      assert |x| == |y|;
      assert forall i :: 0 <= i < |x| ==> x[i] == (a + (x + b))[|a| + i] && y[i] == (a + (y + b))[|a| + i];
    }
  }

  /** Of a database that differs from the schema in one statement, the comparison accepts exactly
      those in which that statement has the words of the expected one. */
  lemma ChangedStatementShows(schema: Schema, k: nat, other: string)
    requires Sane(schema) && k < |schema.items| && SqlText.Ordinary(other, SqlText.SEQUENCE)
    ensures Matches(SqlText.Statements(schema.items)[k := other], schema)
            <==> SqlText.Words(SqlText.Clean(other)) == SqlText.Words(SqlText.Clean(schema.items[k].stmt))
  {
    var stmts := SqlText.Statements(schema.items);
    var tables := stmts[k := other];
    StatementAt(schema.items, k);
    SqlText.SequenceShape();
    SqlText.OrdinaryStatements(schema.items, schema.trailer, SqlText.SEQUENCE);
    SqlText.BesidesOrdinary(tables, SqlText.SEQUENCE);
    MatchesExactly(tables, schema);
    SqlText.WordsAround(stmts, k);
    SqlText.WordsAround(tables, k);
    assert tables[..k] == stmts[..k] && tables[k + 1..] == stmts[k + 1..];
    MiddleDiffers(SqlText.AllWords(stmts[..k]), SqlText.Words(SqlText.Clean(other)),
                  SqlText.Words(SqlText.Clean(stmts[k])), SqlText.AllWords(stmts[k + 1..]));
  }

  /** So one word that is spelled differently, other than in letter case, is noticed, and nothing else
      of it matters: `ws` are the words a statement was written with. */
  lemma ChangedWordShows(schema: Schema, k: nat, ws: seq<string>, j: nat, word: string)
    requires Sane(schema) && k < |schema.items| && j < |ws|
    requires (forall w :: w in ws + [word] ==> SqlText.Wordlike(w)) && schema.items[k].stmt == Text.Join(ws, " ")
    requires SqlText.CommentAt(Text.Join(ws, " ")) == SqlText.CommentAt(Text.Join(ws[j := word], " ")) == -1
    requires SqlText.Ordinary(Text.Join(ws[j := word], " "), SqlText.SEQUENCE)
    ensures Matches(SqlText.Statements(schema.items)[k := Text.Join(ws[j := word], " ")], schema)
            <==> Text.ToLower(word) == Text.ToLower(ws[j])
  {
    var others := ws[j := word];
    assert forall w :: w in others ==> w in ws + [word];
    assert forall w :: w in ws ==> w in ws + [word];
    ChangedStatementShows(schema, k, Text.Join(others, " "));
    SqlText.WordsOfText(ws);
    SqlText.WordsOfText(others);
    var a, b := SqlText.LowerAll(ws), SqlText.LowerAll(others);
    assert forall i :: 0 <= i < |ws| && i != j ==> a[i] == b[i];
    assert a == b <==> a[j] == b[j];
  }

  /** `CREATE TABLE` refuses a name that is taken. */
  predicate Clashes(tables: seq<string>, schema: Schema) {
    exists i, j :: 0 <= i < |tables| && 0 <= j < |schema.items|
      && schema.tableName(tables[i]) == schema.tableName(schema.items[j].stmt)
  }

  lemma StatementsInRows(schema: Schema, k: nat)
    requires k < |schema.items|
    ensures schema.items[k].stmt in MasterRows(schema)
  {
    StatementAt(schema.items, k);
    var stmts := SqlText.Statements(schema.items);
    assert stmts[k] in stmts;
    match schema.sequenceAt {
      case None =>
      case Some(j) => assert j <= |stmts| ==> stmts == stmts[..j] + stmts[j..];
    }
  }

  lemma {:induction false} StatementAt(items: seq<SqlText.Item>, k: nat)
    requires k < |items|
    ensures SqlText.Statements(items)[k] == items[k].stmt
  {
    if k > 0 { StatementAt(items[1..], k - 1); }
  }

  /** The schema's tables cannot be made twice in one file. */
  lemma ClashesWithItself(tables: seq<string>, schema: Schema)
    requires schema.items != []
    ensures Clashes(tables + MasterRows(schema), schema)
  {
    StatementsInRows(schema, 0);
    var rows := MasterRows(schema);
    var i :| 0 <= i < |rows| && rows[i] == schema.items[0].stmt;
    assert (tables + rows)[|tables| + i] == schema.items[0].stmt;
  }

  /** Can the schema's tables be made at this path? */
  predicate Fits(disk: Files, path: Path, schema: Schema) {
    path !in disk || (disk[path].Image? && !Clashes(disk[path].tables, schema))
  }

  // Scripts of failures

  /** Does one of the next `n` statements fail? */
  predicate Trouble(faults: seq<bool>, n: nat) {
    n > 0 && (Faulty(faults) || Trouble(Later(faults), n - 1))
  }

  /** What is left of the script after `n` statements. */
  function Drop(faults: seq<bool>, n: nat): seq<bool> {
    if n == 0 then faults else Drop(Later(faults), n - 1)
  }

  /** Steps of `newDB` that can fail: open, pragmas, begin, schema, commit. */
  const STATEMENTS: nat := 5

  lemma TroubleOnce(faults: seq<bool>)
    ensures (Trouble(faults, 1) <==> Faulty(faults)) && Drop(faults, 1) == Later(faults)
  {
    assert !Trouble(Later(faults), 0) && Drop(Later(faults), 0) == Later(faults);
  }

  lemma {:induction false} TroubleSplits(faults: seq<bool>, n: nat, m: nat)
    ensures Trouble(faults, n + m) <==> Trouble(faults, n) || Trouble(Drop(faults, n), m)
    ensures Drop(faults, n + m) == Drop(Drop(faults, n), m)
    decreases n
  {
    if n > 0 { TroubleSplits(Later(faults), n - 1, m); }
  }

  lemma TroubleTwice(faults: seq<bool>)
    ensures Trouble(faults, 2) <==> Faulty(faults) || Faulty(Later(faults))
    ensures Drop(faults, 2) == Later(Later(faults))
  {
    TroubleOnce(faults);
    TroubleOnce(Later(faults));
    TroubleSplits(faults, 1, 1);
  }

  lemma TroubleUnfolds(faults: seq<bool>)
    ensures var f2 := Later(Later(faults));
      var f4 := Later(Later(f2));
      && (Trouble(faults, STATEMENTS) <==>
            Faulty(faults) || Faulty(Later(faults)) || Faulty(f2) || Faulty(Later(f2)) || Faulty(f4))
      && Drop(faults, STATEMENTS) == Later(f4)
  {
    var f2 := Later(Later(faults));
    TroubleTwice(faults);
    TroubleTwice(f2);
    TroubleOnce(Later(Later(f2)));
    TroubleSplits(faults, 2, 3);
    TroubleSplits(f2, 2, 1);
  }

  // The machine a start runs on

  /** `faults` scripts the outcome of every open and every statement, `stuck` that of every rename. */
  class Host {
    var disk: Files
    var faults: seq<bool>
    var stuck: seq<bool>
    ghost var moved: seq<File>

    constructor (files: Files, script: seq<bool>, renames: seq<bool>)
      ensures disk == files && faults == script && stuck == renames && moved == []
    {
      disk, faults, stuck, moved := files, script, renames, [];
    }

    method Trips() returns (bad: bool)
      modifies this`faults
      ensures bad == Faulty(old(faults)) && faults == Later(old(faults))
    {
      bad := |faults| > 0 && faults[0];
      faults := if |faults| > 0 then faults[1..] else [];
    }

    method Jams() returns (bad: bool)
      modifies this`stuck
      ensures bad == Faulty(old(stuck)) && stuck == Later(old(stuck))
    {
      bad := |stuck| > 0 && stuck[0];
      stuck := if |stuck| > 0 then stuck[1..] else [];
    }

    /** A rename that fails is only logged. */
    method Backup(path: Path, stamp: string)
      modifies this`disk, this`stuck, this`moved
      ensures stuck == Later(old(stuck))
      ensures if path in old(disk) && !Faulty(old(stuck))
              then disk == MovedAway(old(disk), path, stamp) && moved == old(moved) + [old(disk)[path]]
              else disk == old(disk) && moved == old(moved)
      ensures path in old(disk) && !Faulty(old(stuck)) ==>
        var name := if path + ".bak" in old(disk) then path + "-" + stamp + ".bak" else path + ".bak";
        path !in disk && name in disk && disk[name] == old(disk)[path]
    {
      StampNamesDiffer(path, stamp, stamp);
      var backupPath := path + ".bak";
      if backupPath in disk { backupPath := path + "-" + stamp + ".bak"; }
      var bad := Jams();
      if path in disk && !bad {
        moved := moved + [disk[path]];
        disk := (disk - {path})[backupPath := disk[path]];
      }
    }

    /** Does the database file end up with the schema's tables? On a file that is still there, because
        its backup failed, they are added to what it has. */
    method NewDB(path: Path, schema: Schema) returns (ok: bool)
      modifies this`disk, this`faults
      ensures ok && path !in old(disk) ==> disk == old(disk)[path := Image(true, MasterRows(schema), EMPTY)]
      ensures ok && path in old(disk) ==>
        && old(disk)[path].Image? && !Clashes(old(disk)[path].tables, schema)
        && disk == old(disk)[path := old(disk)[path].(tables := old(disk)[path].tables + MasterRows(schema))]
      ensures ok && path in old(disk) && old(disk)[path].Image? ==>
        forall table, item :: table in old(disk)[path].tables && item in schema.items ==>
          schema.tableName(table) != schema.tableName(item.stmt)
      ensures !ok && path in old(disk) ==> disk == old(disk)
      ensures !ok && path !in old(disk) ==> disk == old(disk) || disk == old(disk)[path := Image(true, [], EMPTY)]
      ensures ok <==> !Trouble(old(faults), STATEMENTS) && Fits(old(disk), path, schema)
      ensures ok ==> faults == Drop(old(faults), STATEMENTS)
      ensures old(faults) == [] ==> faults == []
    {
      ghost var script := old(faults);
      TroubleUnfolds(script);
      var bad := Trips(); // sql.Open
      if bad { return false; }
      bad := Trips(); // both pragmas
      if bad || (path in disk && disk[path].Junk?) { return false; }
      if path !in disk { disk := disk[path := Image(true, [], EMPTY)]; }
      bad := Trips(); // Begin
      if bad { return false; }
      bad := Trips(); // the schema
      if bad || Clashes(disk[path].tables, schema) { return false; }
      bad := Trips(); // Commit
      if bad { return false; }
      assert [] + MasterRows(schema) == MasterRows(schema);
      disk := disk[path := disk[path].(tables := disk[path].tables + MasterRows(schema))];
      return true;
    }
  }
}
