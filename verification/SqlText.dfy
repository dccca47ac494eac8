/** Schema comparison: `removeSQLComments` and `normalizeSQL`, and the round trip that lets a
    database written from the schema file be recognised when the server restarts. */
module SqlText {
  import opened Basics
  import opened Text

  /** Position of the first "--", or -1. */
  function CommentAt(line: string): (i: int)
    ensures -1 <= i <= |line|
  {
    if |line| < 2 then -1
    else if line[0] == '-' && line[1] == '-' then 0
    else
      var i := CommentAt(line[1..]);
      if i == -1 then -1 else i + 1
  }

  /** Reference meaning of comment removal, as a scanner: a comment runs from "--" to the end of its
      line, and every line break becomes a blank. */
  function Strip(s: string): string
    decreases |s|
  {
    if s == "" then ""
    else if s[0] == '\n' then " " + Strip(s[1..])
    else if s[0] == '-' && |s| > 1 && s[1] == '-' then SkipLine(s)
    else [s[0]] + Strip(s[1..])
  }

  function SkipLine(s: string): string
    decreases |s|, 1
  {
    if s == "" then ""
    else if s[0] == '\n' then " " + Strip(s[1..])
    else SkipLine(s[1..])
  }

  function CutLine(line: string): string {
    var i := CommentAt(line);
    if i == -1 then line else line[..i]
  }

  /** The line-based algorithm, editing the split lines in place, computes what the scanner does. */
  method RemoveSQLComments(sqlStr: string) returns (r: string)
    ensures r == Strip(sqlStr)
  {
    var split := Split(sqlStr);
    var lines := new string[|split|](i requires 0 <= i < |split| => split[i]);
    for i := 0 to lines.Length
      invariant forall k :: 0 <= k < i ==> lines[k] == CutLine(split[k])
      invariant forall k :: i <= k < lines.Length ==> lines[k] == split[k]
    {
      var idx := CommentAt(lines[i]);
      if idx != -1 {
        lines[i] := lines[i][..idx];
      }
    }
    assert lines[..] == CutAll(split);
    LinesScan(sqlStr);
    r := Join(lines[..], " ");
  }

  function CutAll(lines: seq<string>): seq<string> {
    seq(|lines|, i requires 0 <= i < |lines| => CutLine(lines[i]))
  }

  /** The lines after the first, as the algorithm joins them. */
  function LaterLines(s: string): string {
    if |Split(s)| == 1 then "" else " " + Join(CutAll(Split(s)[1..]), " ")
  }

  lemma FirstLineHead(s: string)
    requires s != "" && s[0] != '\n'
    ensures |Split(s)[0]| > 0 && Split(s)[0][0] == s[0] && Split(s)[0][1..] == Split(s[1..])[0]
    ensures Split(s)[1..] == Split(s[1..])[1..] && |Split(s)| == |Split(s[1..])|
  {
  }

  /** What the line-based algorithm gives for a text, and for one that starts inside a comment. */
  predicate LinesAgree(s: string) {
    Strip(s) == CutLine(Split(s)[0]) + LaterLines(s) && SkipLine(s) == LaterLines(s)
  }

  lemma BreakAgrees(s: string)
    requires s != "" && s[0] == '\n' && LinesAgree(s[1..])
    ensures LinesAgree(s)
  {
    assert Split(s)[0] == "" && Split(s)[1..] == Split(s[1..]) && |Split(s)| > 1;
    assert CutLine("") == "";
    LinesJoin(s[1..]);
  }

  lemma LaterHead(s: string)
    requires s != "" && s[0] != '\n'
    ensures LaterLines(s) == LaterLines(s[1..])
  {
    FirstLineHead(s);
  }

  lemma DashesAgree(s: string)
    requires |s| > 1 && s[0] == '-' && s[1] == '-' && LinesAgree(s[1..])
    ensures LinesAgree(s)
  {
    LaterHead(s);
    FirstLineHead(s);
    FirstLineHead(s[1..]);
    var line := Split(s)[0];
    assert line[0] == '-' && line[1..][0] == '-';
    assert CutLine(line) == "";
  }

  /** A character that starts no comment stays, in front of the first line. */
  lemma CharStays(c: char, line: string, later: string, first: string)
    requires !(c == '-' && line != "" && line[0] == '-') && first == [c] + line
    ensures CutLine(first) + later == [c] + (CutLine(line) + later)
  {
    CutHead(c, line);
  }

  lemma StripChar(s: string)
    requires s != "" && s[0] != '\n' && !(s[0] == '-' && |s| > 1 && s[1] == '-')
    ensures Strip(s) == [s[0]] + Strip(s[1..]) && SkipLine(s) == SkipLine(s[1..])
  {
  }

  lemma FirstChar(s: string)
    ensures Split(s)[0] != "" ==> s != "" && Split(s)[0][0] == s[0]
  {
    if s != "" && s[0] != '\n' { FirstLineHead(s); }
  }

  lemma CharAgrees(s: string)
    requires s != "" && s[0] != '\n' && !(s[0] == '-' && |s| > 1 && s[1] == '-') && LinesAgree(s[1..])
    ensures LinesAgree(s)
  {
    var c, rest := s[0], s[1..];
    LaterHead(s);
    FirstLineHead(s);
    FirstChar(rest);
    StripChar(s);
    CharStays(c, Split(rest)[0], LaterLines(rest), Split(s)[0]);
  }

  lemma {:induction false} LinesScanParts(s: string)
    ensures LinesAgree(s)
    decreases |s|
  {
    if s != "" {
      LinesScanParts(s[1..]);
      if s[0] == '\n' {
        BreakAgrees(s);
      } else if s[0] == '-' && |s| > 1 && s[1] == '-' {
        DashesAgree(s);
      } else {
        CharAgrees(s);
      }
    }
  }

  lemma CutHead(c: char, line: string)
    requires !(c == '-' && line != "" && line[0] == '-')
    ensures CutLine([c] + line) == [c] + CutLine(line)
  {
    assert ([c] + line)[1..] == line;
  }

  lemma JoinHead(parts: seq<string>, sep: string)
    requires parts != []
    ensures Join(parts, sep) == parts[0] + if |parts| == 1 then "" else sep + Join(parts[1..], sep)
  {
  }

  lemma LinesJoin(s: string)
    ensures Join(CutAll(Split(s)), " ") == CutLine(Split(s)[0]) + LaterLines(s)
  {
    var lines := Split(s);
    var all := CutAll(lines);
    assert all[0] == CutLine(lines[0]) && all[1..] == CutAll(lines[1..]);
    JoinHead(all, " ");
  }

  lemma LinesScan(s: string)
    ensures Join(CutAll(Split(s)), " ") == Strip(s)
  {
    LinesScanParts(s);
    LinesJoin(s);
  }

  // normalizeSQL

  const SEQUENCE := "create table sqlite_sequence(name,seq)"

  /** Comment-free lower case: the first two steps of `normalizeSQL`. */
  function Clean(s: string): string {
    ToLower(Strip(s))
  }

  /** The words left once semicolons and line breaks are gone. */
  function Words(s: string): seq<string> {
    Fields(ReplaceAll(ReplaceAll(s, ";", ""), "\n", " "))
  }

  function NormalizeSQL(s: string): string {
    Join(Words(ReplaceAll(Clean(s), SEQUENCE, "")), " ")
  }

  // Words of a concatenation

  lemma {:induction false} ReplaceCharConcat(a: string, b: string, c: char, with: string)
    ensures ReplaceAll(a + b, [c], with) == ReplaceAll(a, [c], with) + ReplaceAll(b, [c], with)
  {
    if a == "" {
      assert a + b == b;
    } else {
      assert (a + b)[1..] == a[1..] + b;
      ReplaceCharConcat(a[1..], b, c, with);
      assert [c] <= a + b <==> [c] <= a;
    }
  }

  lemma WordPrefix(s: string, c: char, t: string)
    requires s != "" && !IsSpace(s[0]) && IsSpace(c)
    ensures Word(s + [c] + t) == Word(s)
  {
    assert (s + [c] + t)[1..] == s[1..] + [c] + t;
    if |s| > 1 && !IsSpace(s[1]) {
      WordPrefix(s[1..], c, t);
    } else if |s| == 1 {
      assert Word(s[1..] + [c] + t) == "";
    }
  }

  lemma FieldsAfterSpace(s: string, rest: string)
    requires s != "" && IsSpace(s[0]) && rest == s[1..]
    ensures Fields(s) == Fields(rest)
  {
  }

  lemma FieldsAfterWord(s: string, w: string, rest: string)
    requires s != "" && !IsSpace(s[0]) && w == Word(s) && rest == s[|w|..]
    ensures Fields(s) == [w] + Fields(rest)
  {
  }

  /** The rest of a text after its first word, and of the text it begins. */
  lemma WordThen(s: string, c: char, t: string, w: string, rest: string)
    requires s != "" && !IsSpace(s[0]) && IsSpace(c) && w == Word(s) && rest == s[|w|..]
    ensures var all := s + [c] + t;
      all != "" && !IsSpace(all[0]) && w == Word(all) && rest + [c] + t == all[|w|..]
  {
    WordPrefix(s, c, t);
  }

  lemma Regroup<T>(all: seq<T>, front: seq<T>, first: seq<T>, rest: seq<T>, later: seq<T>)
    requires all == first + (rest + later) && front == first + rest
    ensures all == front + later
  {
  }

  lemma {:induction false} FieldsConcat(s: string, c: char, t: string)
    requires IsSpace(c)
    ensures Fields(s + [c] + t) == Fields(s) + Fields(t)
    decreases |s|
  {
    var all := s + [c] + t;
    if s == "" {
      FieldsAfterSpace(all, t);
    } else if IsSpace(s[0]) {
      FieldsConcat(s[1..], c, t);
      FieldsAfterSpace(s, s[1..]);
      FieldsAfterSpace(all, s[1..] + [c] + t);
    } else {
      var w, rest := Word(s), s[|Word(s)|..];
      FieldsConcat(rest, c, t);
      WordThen(s, c, t, w, rest);
      FieldsAfterWord(s, w, rest);
      FieldsAfterWord(all, w, rest + [c] + t);
      Regroup(Fields(all), Fields(s), [w], Fields(rest), Fields(t));
    }
  }

  /** White space and semicolons only. */
  predicate Blank(s: string) {
    forall i :: 0 <= i < |s| ==> IsSpace(s[i]) || s[i] == ';'
  }

  /** A blank between two texts separates their words. */
  lemma WordsConcat(a: string, c: char, b: string)
    requires IsSpace(c)
    ensures Words(a + [c] + b) == Words(a) + Words(b)
  {
    ReplaceCharConcat(a + [c], b, ';', "");
    ReplaceCharConcat(a, [c], ';', "");
    var a', b' := ReplaceAll(a, ";", ""), ReplaceAll(b, ";", "");
    assert ReplaceAll([c], ";", "") == [c];
    ReplaceCharConcat(a' + [c], b', '\n', " ");
    ReplaceCharConcat(a', [c], '\n', " ");
    var d := if c == '\n' then ' ' else c;
    assert ReplaceAll([c], "\n", " ") == [d];
    FieldsConcat(ReplaceAll(a', "\n", " "), d, ReplaceAll(b', "\n", " "));
  }

  /** Blanks at the end of a text add no word. */
  lemma {:induction false} WordsTail(a: string, b: string)
    requires Blank(b)
    ensures Words(a + b) == Words(a)
    decreases |b|
  {
    if b == "" {
      assert a + b == a;
    } else {
      var rest := b[1..];
      assert a + b == (a + [b[0]]) + rest;
      WordsTail(a + [b[0]], rest);
      if b[0] == ';' {
        ReplaceCharConcat(a, ";", ';', "");
        assert b[..1] == ";" == [b[0]];
        assert ReplaceAll(";", ";", "") == "";
        assert ReplaceAll(a, ";", "") + "" == ReplaceAll(a, ";", "");
      } else {
        assert a + [b[0]] == a + [b[0]] + "";
        WordsConcat(a, b[0], "");
      }
    }
  }

  // Comment removal of a concatenation

  lemma {:induction false} StripLine(a: string, b: string)
    ensures Strip(a + "\n" + b) == Strip(a) + " " + Strip(b)
    ensures SkipLine(a + "\n" + b) == SkipLine(a) + " " + Strip(b)
    decreases |a|
  {
    var all := a + "\n" + b;
    if a == "" {
      assert all[1..] == b;
    } else {
      assert all[1..] == a[1..] + "\n" + b;
      StripLine(a[1..], b);
      assert |a| == 1 ==> all[1] == '\n';
    }
  }

  /** Is the rest of this line white space once its comment is gone? */
  predicate Filler(line: string) {
    '\n' !in line && Blank(CutLine(line)) && ';' !in CutLine(line)
  }

  lemma {:induction false} StripOneLine(line: string)
    requires '\n' !in line
    ensures Strip(line) == CutLine(line) && SkipLine(line) == ""
    decreases |line|
  {
    if line != "" {
      StripOneLine(line[1..]);
      if !(line[0] == '-' && |line| > 1 && line[1] == '-') { CutHead(line[0], line[1..]); }
      assert line == [line[0]] + line[1..];
    }
  }

  lemma StripCons(c: char, s: string)
    ensures Strip([c] + s) == if c == '\n' then " " + Strip(s)
                              else if c == '-' && s != "" && s[0] == '-' then SkipLine(s) else [c] + Strip(s)
    ensures SkipLine([c] + s) == if c == '\n' then " " + Strip(s) else SkipLine(s)
  {
    assert ([c] + s)[1..] == s;
  }

  /** What the scanner makes of `c` before a text, given what it makes of that, `a` normally and `b`
      inside a comment. */
  function Onto(c: char, dashed: bool, a: string, b: string): string {
    if c == '\n' then " " + a else if c == '-' && dashed then b else [c] + a
  }

  lemma OntoEnd(c: char, dashed: bool, a: string, b: string, e: string, f: string)
    ensures Onto(c, dashed, a + e, b + f) == Onto(c, dashed, a, b) + if c == '-' && dashed then f else e
    ensures " " + (a + e) == " " + a + e
  {
    assert [c] + (a + e) == [c] + a + e;
  }

  lemma StripOnto(c: char, dashed: bool, rest: string)
    requires dashed <==> rest != "" && rest[0] == '-'
    ensures Strip([c] + rest) == Onto(c, dashed, Strip(rest), SkipLine(rest))
    ensures SkipLine([c] + rest) == if c == '\n' then " " + Strip(rest) else SkipLine(rest)
  {
    StripCons(c, rest);
  }

  lemma StripEndStep(c: char, dashed: bool, rest: string, x: string, e: string, f: string)
    requires x != "" && x[0] != '-' && (dashed <==> rest != "" && rest[0] == '-')
    requires Strip(rest + x) == Strip(rest) + e && SkipLine(rest + x) == SkipLine(rest) + f
    ensures Strip([c] + (rest + x)) == Strip([c] + rest) + if c == '-' && dashed then f else e
    ensures SkipLine([c] + (rest + x)) == SkipLine([c] + rest) + if c == '\n' then e else f
  {
    var all := rest + x;
    assert all != "" && all[0] == if rest == "" then x[0] else rest[0];
    StripOnto(c, dashed, rest);
    StripOnto(c, dashed, all);
    OntoEnd(c, dashed, Strip(rest), SkipLine(rest), e, f);
  }

  /** The end of a statement in the file, ";" and the rest of its line, adds blanks at most: `end`
      when scanning normally, `skipped` when the scanner is inside a comment. Either is nothing when
      the statement's last line ends in a comment. */
  lemma {:induction false} StripEnd(a: string, tail: string) returns (end: string, skipped: string)
    requires Filler(tail)
    ensures end == "" || end == ";" + CutLine(tail)
    ensures skipped == "" || skipped == ";" + CutLine(tail)
    ensures Strip(a + (";" + tail)) == Strip(a) + end
    ensures SkipLine(a + (";" + tail)) == SkipLine(a) + skipped
    decreases |a|
  {
    var x := ";" + tail;
    if a == "" {
      assert a + x == x;
      StripCons(';', tail);
      StripOneLine(tail);
      end, skipped := ";" + CutLine(tail), "";
    } else {
      var e, f := StripEnd(a[1..], tail);
      assert a == [a[0]] + a[1..] && a + x == [a[0]] + (a[1..] + x);
      StripEndStep(a[0], |a| > 1 && a[1] == '-', a[1..], x, e, f);
      end := if a[0] == '-' && |a| > 1 && a[1] == '-' then f else e;
      skipped := if a[0] == '\n' then e else f;
    }
  }

  lemma CleanLine(a: string, b: string)
    ensures Clean(a + "\n" + b) == Clean(a) + " " + Clean(b)
  {
    StripLine(a, b);
  }

  lemma LowerKeepsBlank(s: string)
    requires Blank(s)
    ensures Blank(ToLower(s)) && (';' !in s ==> ';' !in ToLower(s))
  {
  }

  lemma LowerConcat(a: string, b: string)
    ensures ToLower(a + b) == ToLower(a) + ToLower(b)
  {
  }

  lemma EndBlank(tail: string)
    requires Filler(tail)
    ensures Blank(ToLower(";" + CutLine(tail)))
  {
    LowerKeepsBlank(";" + CutLine(tail));
  }

  lemma CleanEnd(stmt: string, tail: string) returns (gap: string)
    requires Filler(tail)
    ensures Blank(gap) && Clean(stmt + ";" + tail) == Clean(stmt) + gap
  {
    var end, _ := StripEnd(stmt, tail);
    EndBlank(tail);
    assert stmt + ";" + tail == stmt + (";" + tail);
    gap := ToLower(end);
    LowerConcat(Strip(stmt), end);
  }

  /** A finished statement followed by more text cleans to its own text, blanks, and the rest. */
  lemma CleanStatement(stmt: string, tail: string, rest: string) returns (gap: string)
    requires Filler(tail)
    ensures Blank(gap) && Clean(stmt + ";" + tail + "\n" + rest) == Clean(stmt) + gap + " " + Clean(rest)
  {
    gap := CleanEnd(stmt, tail);
    CleanLine(stmt + ";" + tail, rest);
  }

  lemma CleanFiller(line: string, rest: string)
    requires Filler(line)
    ensures Blank(Clean(line)) && Clean(line + "\n" + rest) == Clean(line) + " " + Clean(rest)
  {
    CleanLine(line, rest);
    StripOneLine(line);
    LowerKeepsBlank(CutLine(line));
  }

  // Occurrences of a pattern, and of the sqlite_sequence text

  predicate At(s: string, p: string, k: int) {
    0 <= k <= |s| - |p| && s[k..k + |p|] == p
  }

  ghost predicate Occurs(s: string, p: string) {
    exists k :: At(s, p, k)
  }

  lemma AbsentLater(s: string, p: string)
    requires !Occurs(s, p) && s != ""
    ensures !Occurs(s[1..], p)
  {
    forall k
      ensures At(s[1..], p, k) ==> At(s, p, k + 1)
    {
      assert 0 <= k <= |s[1..]| - |p| ==> s[1..][k..k + |p|] == s[k + 1..k + 1 + |p|];
    }
  }

  lemma {:induction false} ReplaceAbsent(s: string, p: string)
    requires p != "" && !Occurs(s, p)
    ensures ReplaceAll(s, p, "") == s
  {
    if s != "" {
      assert p <= s ==> At(s, p, 0);
      AbsentLater(s, p);
      ReplaceAbsent(s[1..], p);
    }
  }

  /** A pattern whose last character occurs nowhere else in it cannot overlap itself. */
  predicate LastUnique(p: string) {
    p != "" && forall j :: 0 <= j < |p| - 1 ==> p[j] != p[|p| - 1]
  }

  lemma PrefixOverlap(a: string, p: string, b: string)
    requires p <= a + p + b
    ensures |a| >= |p| ==> At(a, p, 0)
    ensures 0 < |a| < |p| ==> p[|p| - 1] == p[|p| - 1 - |a|]
  {
    assert (a + p + b)[..|p|] == p;
    if |a| >= |p| {
      assert a[0..|p|] == p;
    } else if |a| > 0 {
      assert (a + p + b)[|p| - 1] == p[|p| - 1 - |a|];
    }
  }

  /** Then an occurrence after a text without any is the first. */
  lemma {:induction false} ReplaceFirst(a: string, p: string, b: string)
    requires LastUnique(p) && !Occurs(a, p)
    ensures ReplaceAll(a + p + b, p, "") == a + ReplaceAll(b, p, "")
  {
    var s := a + p + b;
    if a == "" {
      assert p <= s && s[|p|..] == b;
    } else {
      if p <= s { PrefixOverlap(a, p, b); }
      AbsentLater(a, p);
      ReplaceFirst(a[1..], p, b);
      assert s[1..] == a[1..] + p + b;
    }
  }

  /** Nothing can straddle into `s` from the left: it starts with a blank that no "table" or
      "sqlite_sequence" follows. */
  predicate Fence(s: string) {
    s == "" || ((IsSpace(s[0]) || s[0] == ';') && (|s| > 1 ==> s[1] != 't' && s[1] != 's'))
  }

  /** What makes the text of SQLite's own table easy to cut out: it starts with "c", each of its
      blanks comes before a "t" or an "s", and its last character appears once. */
  predicate Removable(p: string) {
    && LastUnique(p) && p[0] == 'c'
    && forall j :: 0 <= j < |p| && (IsSpace(p[j]) || p[j] == ';') ==>
         j + 1 < |p| && (p[j + 1] == 't' || p[j + 1] == 's')
  }

  lemma SequenceEnds()
    ensures LastUnique(SEQUENCE) && SEQUENCE[0] == 'c'
  {
  }

  lemma SequenceChars()
    ensures forall j :: 0 <= j < |SEQUENCE| ==>
      SEQUENCE[j] == ' ' || SEQUENCE[j] == '(' || SEQUENCE[j] == ')' || SEQUENCE[j] == ',' || SEQUENCE[j] == '_'
      || 'a' <= SEQUENCE[j] <= 'z'
  {
  }

  lemma SequenceBlanks()
    ensures forall j :: 0 <= j < |SEQUENCE| && SEQUENCE[j] == ' ' ==>
      j + 1 < |SEQUENCE| && (SEQUENCE[j + 1] == 't' || SEQUENCE[j + 1] == 's')
  {
  }

  lemma SequenceShape()
    ensures Removable(SEQUENCE)
  {
    SequenceEnds();
    SequenceChars();
    SequenceBlanks();
  }

  /** An occurrence that crosses the seam of `a + b` shows its characters on both sides. */
  lemma AcrossSeam(a: string, b: string, p: string, k: int)
    requires At(a + b, p, k)
    ensures At(a, p, k) || At(b, p, k - |a|) || 0 < |a| - k < |p|
    ensures 0 < |a| - k < |p| ==> b != "" && p[|a| - k] == b[0]
    ensures 0 < |a| - k < |p| - 1 ==> |b| > 1 && p[|a| - k + 1] == b[1]
  {
    var s, j := a + b, |a| - k;
    assert forall i :: 0 <= i < |p| ==> p[i] == s[k..k + |p|][i] == s[k + i];
    if j >= |p| { assert s[k..k + |p|] == a[k..k + |p|]; }
    if j <= 0 { assert s[k..k + |p|] == b[k - |a|..k - |a| + |p|]; }
  }

  lemma NoStraddle(a: string, b: string, p: string)
    requires Removable(p) && !Occurs(a, p) && !Occurs(b, p) && Fence(b)
    ensures !Occurs(a + b, p)
  {
    forall k
      ensures !At(a + b, p, k)
    {
      if At(a + b, p, k) { AcrossSeam(a, b, p, k); }
    }
  }

  // The schema file and what SQLite stores of it

  /** One CREATE statement of the file: filler lines before it, its text, and what follows the
      closing semicolon on the same line. */
  datatype Item = Item(gap: seq<string>, stmt: string, tail: string)

  /** The statement starts as "CREATE" does and does not spell out SQLite's own table, `p`. */
  ghost predicate Ordinary(stmt: string, p: string) {
    Clean(stmt) != "" && Clean(stmt)[0] == 'c' && !Occurs(Clean(stmt), p)
  }

  ghost predicate WellFormed(items: seq<Item>, trailer: seq<string>, p: string) {
    && (forall item :: item in items ==>
          Ordinary(item.stmt, p) && Filler(item.tail) && forall line :: line in item.gap ==> Filler(line))
    && forall line :: line in trailer ==> Filler(line)
  }

  function Lines(lines: seq<string>): string {
    if lines == [] then "" else lines[0] + "\n" + Lines(lines[1..])
  }

  function Source(items: seq<Item>, trailer: seq<string>): string {
    if items == [] then Lines(trailer)
    else Lines(items[0].gap) + (items[0].stmt + ";" + items[0].tail + "\n" + Source(items[1..], trailer))
  }

  function Statements(items: seq<Item>): (stmts: seq<string>)
    ensures |stmts| == |items|
  {
    if items == [] then [] else [items[0].stmt] + Statements(items[1..])
  }

  /** `row` spells `p` in any letter case. */
  predicate Spells(row: string, p: string) {
    |row| == |p| && forall i :: 0 <= i < |p| ==> LowerChar(row[i]) == p[i] && p[i] != '-' && p[i] != '\n'
  }

  const SEQUENCE_ROW := "CREATE TABLE sqlite_sequence(name,seq)"

  lemma SequenceRowLower()
    ensures |SEQUENCE_ROW| == |SEQUENCE|
    ensures forall i :: 0 <= i < |SEQUENCE| ==> LowerChar(SEQUENCE_ROW[i]) == SEQUENCE[i]
  {
  }

  lemma SequenceRowSpells()
    ensures Spells(SEQUENCE_ROW, SEQUENCE) && SEQUENCE_ROW == "CREATE TABLE sqlite_sequence(name,seq)"
  {
    SequenceRowLower();
    var row, p := SEQUENCE_ROW, SEQUENCE;
    assert forall i :: 0 <= i < |p| ==> p[i] != '-' && p[i] != '\n' by { SequenceChars(); }
  }

  /** What `fetchSchema` can find besides SQLite's own table, `p`. */
  ghost predicate Listed(tables: seq<string>, p: string) {
    forall table :: table in tables ==> Ordinary(table, p) || Spells(table, p)
  }

  function Besides(tables: seq<string>, p: string): seq<string> {
    if tables == [] then [] else (if Spells(tables[0], p) then [] else [tables[0]]) + Besides(tables[1..], p)
  }

  function AllWords(stmts: seq<string>): seq<string> {
    if stmts == [] then [] else Words(Clean(stmts[0])) + AllWords(stmts[1..])
  }

  lemma {:induction false} LinesConcat(a: seq<string>, b: seq<string>)
    ensures Lines(a + b) == Lines(a) + Lines(b)
  {
    if a == [] {
      assert a + b == b;
    } else {
      assert (a + b)[1..] == a[1..] + b;
      LinesConcat(a[1..], b);
    }
  }

  lemma {:induction false} BesidesConcat(a: seq<string>, b: seq<string>, p: string)
    ensures Besides(a + b, p) == Besides(a, p) + Besides(b, p)
  {
    if a == [] {
      assert a + b == b;
    } else {
      assert (a + b)[1..] == a[1..] + b;
      BesidesConcat(a[1..], b, p);
    }
  }

  lemma {:induction false} AllWordsConcat(a: seq<string>, b: seq<string>)
    ensures AllWords(a + b) == AllWords(a) + AllWords(b)
  {
    if a == [] {
      assert a + b == b;
    } else {
      assert (a + b)[1..] == a[1..] + b;
      AllWordsConcat(a[1..], b);
    }
  }

  /** A cleaned text that can stand to the right of another one. */
  ghost predicate Quiet(s: string, p: string) {
    !Occurs(s, p) && (s != "" ==> s[0] != 't' && s[0] != 's')
  }

  lemma BlankPrefix(b: string, s: string, p: string)
    requires Removable(p) && Blank(b) && !Occurs(s, p)
    ensures !Occurs(b + s, p)
  {
    forall k | At(b + s, p, k)
      ensures At(s, p, k - |b|)
    {
      assert p[0] == (b + s)[k..k + |p|][0] == (b + s)[k];
      assert (b + s)[k..k + |p|] == s[k - |b|..k - |b| + |p|];
    }
  }

  lemma StatementQuiet(text: string, gap: string, rest: string, p: string)
    requires Removable(p) && text != "" && text[0] == 'c' && !Occurs(text, p) && Blank(gap) && Quiet(rest, p)
    ensures Quiet(text + (gap + " " + rest), p)
  {
    BlankPrefix(gap + " ", rest, p);
    assert Fence(gap + " " + rest) by {
      if |gap| > 1 {
        assert (gap + " " + rest)[1] == gap[1];
      } else if |gap| == 1 {
        assert (gap + " " + rest)[1] == ' ';
      } else if rest != "" {
        assert (gap + " " + rest)[1] == rest[0];
      }
    }
    NoStraddle(text, gap + " " + rest, p);
  }

  /** A statement, blanks, and a quiet text: quiet again, and the words just follow each other. */
  lemma StatementThen(text: string, gap: string, rest: string, p: string)
    requires Removable(p) && text != "" && text[0] == 'c' && !Occurs(text, p) && Blank(gap) && Quiet(rest, p)
    ensures Quiet(text + gap + " " + rest, p)
    ensures Words(text + gap + " " + rest) == Words(text) + Words(rest)
  {
    StatementWords(text, gap, rest);
    StatementQuiet(text, gap, rest, p);
    assert text + gap + " " + rest == text + (gap + " " + rest);
  }

  lemma StatementWords(text: string, gap: string, rest: string)
    requires Blank(gap)
    ensures Words(text + gap + " " + rest) == Words(text) + Words(rest)
  {
    WordsConcat(text + gap, ' ', rest);
    WordsTail(text, gap);
  }

  lemma BlankThen(blank: string, rest: string, p: string)
    requires Removable(p) && Blank(blank) && Quiet(rest, p)
    ensures Quiet(blank + " " + rest, p) && Words(blank + " " + rest) == Words(rest)
  {
    BlankPrefix(blank + " ", rest, p);
    WordsConcat(blank, ' ', rest);
    WordsTail("", blank);
    assert "" + blank == blank;
  }

  lemma {:induction false} FillerThen(lines: seq<string>, rest: string, p: string)
    requires Removable(p) && (forall line :: line in lines ==> Filler(line)) && Quiet(Clean(rest), p)
    ensures Quiet(Clean(Lines(lines) + rest), p) && Words(Clean(Lines(lines) + rest)) == Words(Clean(rest))
  {
    if lines == [] {
      assert Lines(lines) + rest == rest;
    } else {
      FillerThen(lines[1..], rest, p);
      var later := Lines(lines[1..]) + rest;
      assert Lines(lines) + rest == lines[0] + "\n" + later;
      CleanFiller(lines[0], later);
      BlankThen(Clean(lines[0]), Clean(later), p);
    }
  }

  lemma {:induction false} SourceWords(items: seq<Item>, trailer: seq<string>, p: string)
    requires Removable(p) && WellFormed(items, trailer, p)
    ensures Quiet(Clean(Source(items, trailer)), p)
    ensures Words(Clean(Source(items, trailer))) == AllWords(Statements(items))
  {
    if items == [] {
      assert Lines(trailer) + "" == Lines(trailer);
      FillerThen(trailer, "", p);
    } else {
      var item, rest := items[0], Source(items[1..], trailer);
      SourceWords(items[1..], trailer, p);
      var gap := CleanStatement(item.stmt, item.tail, rest);
      StatementThen(Clean(item.stmt), gap, Clean(rest), p);
      FillerThen(item.gap, item.stmt + ";" + item.tail + "\n" + rest, p);
    }
  }

  /** Statements stored one per line, followed by any text. */
  lemma {:induction false} StoredThen(stmts: seq<string>, rest: string, p: string) returns (before: string)
    requires Removable(p) && forall s :: s in stmts ==> Ordinary(s, p)
    ensures Clean(Lines(stmts) + rest) == before + Clean(rest)
    ensures Quiet(before, p) && Words(before) == AllWords(stmts)
  {
    if stmts == [] {
      assert Lines(stmts) + rest == rest;
      before := "";
    } else {
      var after := StoredThen(stmts[1..], rest, p);
      before := OneStored(stmts[0], Lines(stmts[1..]) + rest, after, Clean(rest), p);
      assert Lines(stmts) + rest == stmts[0] + "\n" + (Lines(stmts[1..]) + rest);
    }
  }

  lemma OneStored(stmt: string, later: string, after: string, end: string, p: string) returns (before: string)
    requires Removable(p) && Ordinary(stmt, p) && Clean(later) == after + end && Quiet(after, p)
    ensures Clean(stmt + "\n" + later) == before + end
    ensures Quiet(before, p) && Words(before) == Words(Clean(stmt)) + Words(after)
  {
    CleanLine(stmt, later);
    before := Clean(stmt) + "" + " " + after;
    assert Clean(stmt) + " " + (after + end) == before + end;
    StatementThen(Clean(stmt), "", after, p);
  }

  lemma {:induction false} StripPlain(s: string)
    requires '-' !in s && '\n' !in s
    ensures Strip(s) == s
    decreases |s|
  {
    if s != "" {
      StripPlain(s[1..]);
      assert s == [s[0]] + s[1..];
    }
  }

  /** What `normalizeSQL` leaves of the stored statements, as words. */
  function Left(tables: seq<string>, p: string): seq<string>
    requires p != ""
  {
    Words(ReplaceAll(Clean(Lines(tables)), p, ""))
  }

  lemma StoredWords(stmts: seq<string>, p: string)
    requires Removable(p) && forall s :: s in stmts ==> Ordinary(s, p)
    ensures Left(stmts, p) == AllWords(stmts)
  {
    var all := StoredThen(stmts, "", p);
    assert Lines(stmts) + "" == Lines(stmts) && all + Clean("") == all;
    ReplaceAbsent(all, p);
  }

  /** The first row of SQLite's own table is cut out, and whatever follows is dealt with by itself. */
  lemma CutOut(before: string, p: string, later: string)
    requires Removable(p) && Quiet(before, p)
    ensures Words(ReplaceAll(before + (p + " " + later), p, "")) == Words(before) + Words(ReplaceAll(later, p, ""))
  {
    var rest := ReplaceAll(later, p, "");
    assert before + (p + " " + later) == before + p + (" " + later);
    ReplaceFirst(before, p, " " + later);
    assert ReplaceAll(" " + later, p, "") == " " + rest by {
      assert p[0] != (" " + later)[0] && (" " + later)[1..] == later;
    }
    assert before + (" " + rest) == before + [' '] + rest;
    WordsConcat(before, ' ', rest);
  }

  lemma SpelledClean(row: string, p: string)
    requires Spells(row, p)
    ensures Clean(row) == p
  {
    StripPlain(row);
  }

  lemma OrdinaryIsNoRow(table: string, p: string)
    requires Removable(p) && Ordinary(table, p)
    ensures !Spells(table, p) && Besides([table], p) == [table]
  {
    if Spells(table, p) { SpelledClean(table, p); }
    assert Clean(table) == p ==> At(Clean(table), p, 0);
    assert [table][1..] == [];
  }

  lemma {:induction false} BesidesOrdinary(stmts: seq<string>, p: string)
    requires Removable(p) && forall s :: s in stmts ==> Ordinary(s, p)
    ensures Besides(stmts, p) == stmts
  {
    if stmts != [] {
      OrdinaryIsNoRow(stmts[0], p);
      BesidesOrdinary(stmts[1..], p);
    }
  }

  lemma RowListed(before: seq<string>, row: string, later: seq<string>, p: string)
    requires Removable(p) && Spells(row, p) && forall s :: s in before ==> Ordinary(s, p)
    ensures Left(before + ([row] + later), p) == AllWords(before) + Left(later, p)
  {
    LinesConcat(before, [row] + later);
    assert ([row] + later)[1..] == later;
    var first := StoredThen(before, row + "\n" + Lines(later), p);
    CleanLine(row, Lines(later));
    SpelledClean(row, p);
    CutOut(first, p, Clean(Lines(later)));
  }

  lemma BesidesHead(table: string, later: seq<string>, p: string)
    ensures Besides([table] + later, p) == if Spells(table, p) then Besides(later, p) else [table] + Besides(later, p)
  {
    assert ([table] + later)[1..] == later;
  }

  lemma AllWordsHead(table: string, later: seq<string>)
    ensures AllWords([table] + later) == Words(Clean(table)) + AllWords(later)
  {
    assert ([table] + later)[1..] == later;
  }

  lemma WordsAround(stmts: seq<string>, k: nat)
    requires k < |stmts|
    ensures AllWords(stmts) == AllWords(stmts[..k]) + (Words(Clean(stmts[k])) + AllWords(stmts[k + 1..]))
  {
    assert stmts == stmts[..k] + stmts[k..] && stmts[k..] == [stmts[k]] + stmts[k + 1..];
    AllWordsConcat(stmts[..k], stmts[k..]);
    AllWordsHead(stmts[k], stmts[k + 1..]);
  }

  lemma AllWordsMove(before: seq<string>, table: string, later: seq<string>)
    ensures AllWords(before + [table]) + AllWords(later) == AllWords(before) + AllWords([table] + later)
  {
    AllWordsConcat(before, [table]);
    AllWordsHead(table, []);
    AllWordsHead(table, later);
    assert [table] + [] == [table];
  }

  /** `read` are the words of the tables from `before` on, if `table` is counted among the first. */
  lemma OneMoreTable(read: seq<string>, before: seq<string>, table: string, later: seq<string>, p: string)
    requires !Spells(table, p) && read == AllWords(before + [table]) + AllWords(Besides(later, p))
    ensures read == AllWords(before) + AllWords(Besides([table] + later, p))
  {
    BesidesHead(table, later, p);
    AllWordsMove(before, table, Besides(later, p));
  }

  /** The words of any list of tables, among which SQLite's own can stand anywhere and in any letter
      case: those of the others, one table after the other. `before` are the tables already read. */
  lemma {:induction false} ListedWords(before: seq<string>, tables: seq<string>, p: string)
    requires Removable(p) && (forall s :: s in before ==> Ordinary(s, p)) && Listed(tables, p)
    ensures Left(before + tables, p) == AllWords(before) + AllWords(Besides(tables, p))
    decreases |tables|, 0
  {
    if tables == [] {
      assert before + tables == before;
      StoredWords(before, p);
    } else {
      assert tables == [tables[0]] + tables[1..];
      if Spells(tables[0], p) {
        LeftLater(tables[1..], p);
        RowListed(before, tables[0], tables[1..], p);
        BesidesHead(tables[0], tables[1..], p);
      } else {
        ListedWords(before + [tables[0]], tables[1..], p);
        assert before + tables == before + [tables[0]] + tables[1..];
        OneMoreTable(Left(before + tables, p), before, tables[0], tables[1..], p);
      }
    }
  }

  lemma {:induction false} LeftLater(tables: seq<string>, p: string)
    requires Removable(p) && Listed(tables, p)
    ensures Left(tables, p) == AllWords(Besides(tables, p))
    decreases |tables|, 1
  {
    ListedWords([], tables, p);
    assert [] + tables == tables;
  }

  lemma OrdinaryStatements(items: seq<Item>, trailer: seq<string>, p: string)
    requires WellFormed(items, trailer, p)
    ensures forall s :: s in Statements(items) ==> Ordinary(s, p)
  {
    if items != [] { OrdinaryStatements(items[1..], trailer, p); }
  }

  lemma SourceNormal(items: seq<Item>, trailer: seq<string>, p: string)
    requires Removable(p) && WellFormed(items, trailer, p)
    ensures Words(ReplaceAll(Clean(Source(items, trailer)), p, "")) == AllWords(Statements(items))
  {
    SourceWords(items, trailer, p);
    ReplaceAbsent(Clean(Source(items, trailer)), p);
  }

  /** The stored statements of any database normalise to the text of the schema file if and only if,
      SQLite's own table aside, they have the words of its statements in their order: whatever the
      comments and layout of the file, and wherever that table is listed. */
  lemma SchemaRecognised(items: seq<Item>, trailer: seq<string>, tables: seq<string>)
    requires WellFormed(items, trailer, SEQUENCE) && Listed(tables, SEQUENCE)
    ensures NormalizeSQL(Lines(tables)) == NormalizeSQL(Source(items, trailer))
            <==> AllWords(Besides(tables, SEQUENCE)) == AllWords(Statements(items))
  {
    SequenceShape();
    SourceNormal(items, trailer, SEQUENCE);
    LeftLater(tables, SEQUENCE);
    NormalFormsCompareWords(Lines(tables), Source(items, trailer));
  }

  /** A database whose stored statements are those of the schema file normalises to the same text
      as the file, whatever its comments and layout and wherever SQLite lists its own table. */
  lemma SchemaRoundTrip(items: seq<Item>, trailer: seq<string>, tables: seq<string>)
    requires WellFormed(items, trailer, SEQUENCE) && Listed(tables, SEQUENCE)
    requires Besides(tables, SEQUENCE) == Statements(items)
    ensures NormalizeSQL(Source(items, trailer)) == NormalizeSQL(Lines(tables))
  {
    SchemaRecognised(items, trailer, tables);
  }

  // What the words of a statement are

  lemma {:induction false} ReplaceNothing(s: string, c: char, with: string)
    requires c !in s
    ensures ReplaceAll(s, [c], with) == s
  {
    if s != "" {
      assert !([c] <= s) by { assert [c][0] != s[0]; }
      ReplaceNothing(s[1..], c, with);
    }
  }

  function LowerAll(ws: seq<string>): (lower: seq<string>)
    ensures |lower| == |ws| && forall i :: 0 <= i < |ws| ==> lower[i] == ToLower(ws[i])
  {
    seq(|ws|, i requires 0 <= i < |ws| => ToLower(ws[i]))
  }

  lemma {:induction false} LowerJoin(ws: seq<string>)
    ensures ToLower(Join(ws, " ")) == Join(LowerAll(ws), " ")
  {
    if |ws| > 1 {
      LowerJoin(ws[1..]);
      assert LowerAll(ws)[1..] == LowerAll(ws[1..]);
      LowerConcat(ws[0] + " ", Join(ws[1..], " "));
      LowerConcat(ws[0], " ");
      assert ToLower(" ") == " ";
    }
  }

  lemma {:induction false} JoinWithout(ws: seq<string>, c: char)
    requires c != ' ' && forall w :: w in ws ==> c !in w
    ensures c !in Join(ws, " ")
  {
    if |ws| > 1 { JoinWithout(ws[1..], c); }
  }

  /** A word as the comparison sees it: no white space and no semicolon in it. */
  predicate Wordlike(w: string) {
    w != "" && ';' !in w && forall i :: 0 <= i < |w| ==> !IsSpace(w[i])
  }

  lemma LowerWordlike(w: string)
    requires Wordlike(w)
    ensures Wordlike(ToLower(w)) && '\n' !in ToLower(w)
  {
    var t := ToLower(w);
    assert forall i :: 0 <= i < |t| ==> !IsSpace(t[i]) && t[i] != ';' by {
      assert forall i :: 0 <= i < |w| ==> t[i] == LowerChar(w[i]) && w[i] in w;
    }
  }

  /** A text without a comment has the words it was written with, in lower case. */
  lemma WordsOfText(ws: seq<string>)
    requires (forall w :: w in ws ==> Wordlike(w)) && CommentAt(Join(ws, " ")) == -1
    ensures Words(Clean(Join(ws, " "))) == LowerAll(ws)
  {
    var text, lower := Join(ws, " "), LowerAll(ws);
    forall w | w in ws
      ensures '\n' !in w
    {
    }
    JoinWithout(ws, '\n');
    StripOneLine(text);
    LowerJoin(ws);
    forall w | w in lower
      ensures Wordlike(w) && '\n' !in w
    {
      var i :| 0 <= i < |lower| && lower[i] == w;
      assert ws[i] in ws;
      LowerWordlike(ws[i]);
    }
    JoinWithout(lower, ';');
    JoinWithout(lower, '\n');
    ReplaceNothing(Join(lower, " "), ';', "");
    ReplaceNothing(Join(lower, " "), '\n', " ");
    FieldsOfJoin(lower);
  }

  // Normal forms compare words

  lemma {:induction false} FieldsOfWord(w: string)
    requires w != "" && forall i :: 0 <= i < |w| ==> !IsSpace(w[i])
    ensures Word(w) == w && Fields(w) == [w]
  {
    if |w| > 1 { FieldsOfWord(w[1..]); }
  }

  /** Every field is a nonempty run without white space. */
  lemma {:induction false} FieldsAreWords(s: string)
    ensures forall w :: w in Fields(s) ==> w != "" && forall i :: 0 <= i < |w| ==> !IsSpace(w[i])
    decreases |s|
  {
    if s != "" {
      if IsSpace(s[0]) {
        FieldsAreWords(s[1..]);
      } else {
        WordHasNoSpace(s);
        FieldsAreWords(s[|Word(s)|..]);
      }
    }
  }

  lemma {:induction false} WordHasNoSpace(s: string)
    ensures forall i :: 0 <= i < |Word(s)| ==> !IsSpace(Word(s)[i])
  {
    if s != "" && !IsSpace(s[0]) { WordHasNoSpace(s[1..]); }
  }

  lemma {:induction false} FieldsOfJoin(ws: seq<string>)
    requires forall w :: w in ws ==> w != "" && forall i :: 0 <= i < |w| ==> !IsSpace(w[i])
    ensures Fields(Join(ws, " ")) == ws
  {
    if ws != [] {
      FieldsOfWord(ws[0]);
      if |ws| > 1 {
        FieldsOfJoin(ws[1..]);
        FieldsConcat(ws[0], ' ', Join(ws[1..], " "));
      }
    }
  }

  /** Two schemas normalise alike if and only if they leave the same words. */
  lemma NormalFormsCompareWords(a: string, b: string)
    ensures NormalizeSQL(a) == NormalizeSQL(b)
            <==> Words(ReplaceAll(Clean(a), SEQUENCE, "")) == Words(ReplaceAll(Clean(b), SEQUENCE, ""))
  {
    var wa, wb := Words(ReplaceAll(Clean(a), SEQUENCE, "")), Words(ReplaceAll(Clean(b), SEQUENCE, ""));
    FieldsAreWords(ReplaceAll(ReplaceAll(ReplaceAll(Clean(a), SEQUENCE, ""), ";", ""), "\n", " "));
    FieldsAreWords(ReplaceAll(ReplaceAll(ReplaceAll(Clean(b), SEQUENCE, ""), ";", ""), "\n", " "));
    FieldsOfJoin(wa);
    FieldsOfJoin(wb);
  }
}
