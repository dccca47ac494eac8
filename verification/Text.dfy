/** The string functions of Go's library that decide behaviour here. */
module Text {

  /** White space as `unicode.IsSpace` has it. */
  predicate IsSpace(c: char) {
    var n := c as int;
    9 <= n <= 13 || n == 0x20 || n == 0x85 || n == 0xA0 || n == 0x1680 || 0x2000 <= n <= 0x200a
    || n == 0x2028 || n == 0x2029 || n == 0x202f || n == 0x205f || n == 0x3000
  }

  /** In ASCII: the blank, and tab, line feed, vertical tab, form feed and carriage return. */
  lemma AsciiSpace(c: char)
    requires c as int < 0x80
    ensures IsSpace(c) <==> c == ' ' || '\t' <= c <= '\r'
  {
  }

  function TrimLeft(s: string): string {
    if s != "" && IsSpace(s[0]) then TrimLeft(s[1..]) else s
  }

  function TrimRight(s: string): string {
    if s != "" && IsSpace(s[|s| - 1]) then TrimRight(s[..|s| - 1]) else s
  }

  function TrimSpace(s: string): string {
    TrimRight(TrimLeft(s))
  }

  /** Trimming leaves a text alone exactly when neither end is white space. */
  lemma {:induction false} TrimIdentity(s: string)
    ensures TrimSpace(s) == s <==> s == "" || (!IsSpace(s[0]) && !IsSpace(s[|s| - 1]))
  {
    TrimLeftShorter(s);
    TrimRightShorter(TrimLeft(s));
  }

  lemma {:induction false} TrimLeftShorter(s: string)
    ensures |TrimLeft(s)| <= |s| && (s != "" && IsSpace(s[0]) ==> |TrimLeft(s)| < |s|)
  {
    if s != "" && IsSpace(s[0]) { TrimLeftShorter(s[1..]); }
  }

  lemma {:induction false} TrimRightShorter(s: string)
    ensures |TrimRight(s)| <= |s| && (s != "" && IsSpace(s[|s| - 1]) ==> |TrimRight(s)| < |s|)
  {
    if s != "" && IsSpace(s[|s| - 1]) { TrimRightShorter(s[..|s| - 1]); }
  }

  /** Trimming on the left stops at a character that is no white space, and keeps other characters. */
  lemma {:induction false} TrimLeftBefore(a: string, c: char, b: string)
    requires !IsSpace(c)
    ensures TrimLeft(a + [c] + b) == TrimLeft(a) + [c] + b && (c in TrimLeft(a) <==> c in a)
  {
    if a == "" {
      assert a + [c] + b == [c] + b;
    } else if IsSpace(a[0]) {
      TrimLeftBefore(a[1..], c, b);
      assert (a + [c] + b)[1..] == a[1..] + [c] + b;
      assert a == [a[0]] + a[1..];
    }
  }

  lemma {:induction false} TrimRightAfter(a: string, c: char, b: string)
    requires !IsSpace(c)
    ensures TrimRight(a + [c] + b) == a + [c] + TrimRight(b)
  {
    var s := a + [c] + b;
    if b == "" {
      assert s == a + [c];
    } else if IsSpace(b[|b| - 1]) {
      TrimRightAfter(a, c, b[..|b| - 1]);
      assert s[..|s| - 1] == a + [c] + b[..|b| - 1];
    }
  }

  /** `strings.ReplaceAll`: leftmost occurrences, without rescanning what was put in. */
  function ReplaceAll(s: string, old_: string, new_: string): string
    requires old_ != ""
  {
    if s == "" then ""
    else if old_ <= s then new_ + ReplaceAll(s[|old_|..], old_, new_)
    else [s[0]] + ReplaceAll(s[1..], old_, new_)
  }

  /** `strings.Split(s, "\n")`: always at least one line. */
  function Split(s: string): (lines: seq<string>)
    ensures lines != []
  {
    if s == "" then [""]
    else
      var rest := Split(s[1..]);
      if s[0] == '\n' then [""] + rest else [[s[0]] + rest[0]] + rest[1..]
  }

  function Join(parts: seq<string>, sep: string): string {
    if parts == [] then "" else if |parts| == 1 then parts[0] else parts[0] + sep + Join(parts[1..], sep)
  }

  /** `strings.ToLower` on ASCII; other characters are kept. */
  function LowerChar(c: char): (lower: char)
    ensures c < 'A' || 'Z' < c ==> lower == c
    ensures 'A' <= c <= 'Z' ==> 'a' <= lower <= 'z' && lower as int - 'a' as int == c as int - 'A' as int
  {
    if 'A' <= c <= 'Z' then (c as int + 32) as char else c
  }

  function ToLower(s: string): (t: string)
    ensures |t| == |s| && forall i :: 0 <= i < |s| ==> t[i] == LowerChar(s[i])
  {
    seq(|s|, i requires 0 <= i < |s| => LowerChar(s[i]))
  }

  /** The longest prefix without white space. */
  function Word(s: string): (w: string)
    ensures w <= s
    ensures s != "" && !IsSpace(s[0]) ==> w != ""
  {
    if s == "" || IsSpace(s[0]) then "" else [s[0]] + Word(s[1..])
  }

  /** `strings.Fields`: the maximal runs without white space. */
  function Fields(s: string): seq<string>
    decreases |s|
  {
    if s == "" then []
    else if IsSpace(s[0]) then Fields(s[1..])
    else [Word(s)] + Fields(s[|Word(s)|..])
  }
}
