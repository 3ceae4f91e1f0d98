/** Which texts a pattern of grep describes (user/grep.c): literals, `.`, `c*`, a leading `^` and a
    final `$`.  A C string is the sequence of its characters, without the NUL. */
module Patterns {

  datatype Item = One(c: char) | Any | Many(c: char) | ManyAny

  /** A pattern after any leading `^`. */
  datatype Pattern = Pattern(items: seq<Item>, atEnd: bool)

  function Single(c: char): Item { if c == '.' then Any else One(c) }

  function Starred(c: char): Item { if c == '.' then ManyAny else Many(c) }

  /** A character followed by `*` is repeated, whatever it is; a `$` counts only if it is the last
      character; all else stands for itself. */
  function Parse(re: string): Pattern {
    if re == [] then Pattern([], false)
    else if |re| > 1 && re[1] == '*' then Cons(Starred(re[0]), Parse(re[2..]))
    else if re == "$" then Pattern([], true)
    else Cons(Single(re[0]), Parse(re[1..]))
  }

  function Cons(it: Item, p: Pattern): Pattern { Pattern([it] + p.items, p.atEnd) }

  // Patterns and their text.

  function Text(it: Item): string {
    match it case One(c) => [c] case Any => "." case Many(c) => [c, '*'] case ManyAny => ".*"
  }

  function Write(items: seq<Item>, atEnd: bool): string {
    if items == [] then (if atEnd then "$" else "") else Text(items[0]) + Write(items[1..], atEnd)
  }

  /** The items can be written: a full stop stands for any character only, what begins with an asterisk does not
      follow an item that is not repeated, and a dollar sign does not come last. */
  predicate Writable(items: seq<Item>, atEnd: bool) {
    items != [] ==>
      && items[0] != One('.') && items[0] != Many('.')
      && (items[0].One? || items[0].Any? ==> |items| > 1 ==> items[1] != One('*') && items[1] != Many('*'))
      && (items == [One('$')] ==> atEnd)
      && Writable(items[1..], atEnd)
  }

  /** Every pattern that can be written is read back. */
  lemma {:induction false} ParseWritten(items: seq<Item>, atEnd: bool)
    requires Writable(items, atEnd)
    ensures Parse(Write(items, atEnd)) == Pattern(items, atEnd)
  {
    if items != [] {
      var it, rest, re := items[0], Write(items[1..], atEnd), Write(items, atEnd);
      ParseWritten(items[1..], atEnd);
      assert items == [it] + items[1..];
      if it.One? || it.Any? {
        assert re[1..] == rest;
        assert rest != [] ==> re[1] == rest[0] != '*';
      } else {
        assert re[2..] == rest;
      }
    }
  }

  /** And every text is that of the pattern read from it, so no two texts are read alike. */
  lemma {:induction false} WriteParsed(re: string)
    ensures var p := Parse(re); Writable(p.items, p.atEnd) && Write(p.items, p.atEnd) == re
  {
    if re != [] && re != "$" {
      var starred := |re| > 1 && re[1] == '*';
      var tail := if starred then re[2..] else re[1..];
      WriteParsed(tail);
      var p, q := Parse(re), Parse(tail);
      assert p.items[1..] == q.items;
      assert re == Text(p.items[0]) + tail;
      if !starred && q.items != [] { assert tail[0] == Text(q.items[0])[0]; }
    }
  }

  // The language.

  ghost predicate InItem(it: Item, w: string) {
    match it
    case One(c) => w == [c]
    case Any => |w| == 1
    case Many(c) => forall i | 0 <= i < |w| :: w[i] == c
    case ManyAny => true
  }

  ghost predicate Spells(items: seq<Item>, parts: seq<string>) {
    |parts| == |items| && forall k | 0 <= k < |parts| :: InItem(items[k], parts[k])
  }

  ghost function Join(parts: seq<string>): string {
    if parts == [] then [] else parts[0] + Join(parts[1..])
  }

  /** The text begins with words for the items, one after the other, and ends there if it must. */
  ghost predicate BeginsWith(p: Pattern, text: string, parts: seq<string>) {
    Spells(p.items, parts) && Join(parts) <= text && (p.atEnd ==> Join(parts) == text)
  }

  ghost predicate Begins(p: Pattern, text: string) {
    exists parts :: BeginsWith(p, text, parts)
  }

  ghost predicate BeginsAt(p: Pattern, text: string, i: nat) {
    i <= |text| && Begins(p, text[i..])
  }

  /** The text matches at its start if the pattern has a leading `^`, else anywhere. */
  ghost predicate Matches(re: string, text: string) {
    if re != [] && re[0] == '^' then Begins(Parse(re[1..]), text)
    else exists i: nat :: BeginsAt(Parse(re), text, i)
  }

  // How the language unfolds.

  lemma BeginsEmpty(atEnd: bool, text: string)
    ensures Begins(Pattern([], atEnd), text) <==> (atEnd ==> text == [])
  {
    var p := Pattern([], atEnd);
    assert BeginsWith(p, text, []) <==> (atEnd ==> text == []);
    if parts :| BeginsWith(p, text, parts) {
      assert parts == [];
    }
  }

  lemma BeginsSplit(it: Item, p: Pattern, text: string) returns (k: nat)
    requires Begins(Cons(it, p), text)
    ensures k <= |text| && InItem(it, text[..k]) && Begins(p, text[k..])
  {
    var items := [it] + p.items;
    var parts :| BeginsWith(Cons(it, p), text, parts);
    k := |parts[0]|;
    assert Join(parts) == parts[0] + Join(parts[1..]);
    assert text[..k] == parts[0] && items[0] == it;
    assert Join(parts[1..]) == text[k..][..|Join(parts[1..])|];
    assert BeginsWith(p, text[k..], parts[1..]) by {
      forall j | 0 <= j < |parts| - 1 ensures InItem(p.items[j], parts[1..][j]) {
        assert InItem(items[j + 1], parts[j + 1]);
      }
    }
  }

  lemma BeginsJoin(it: Item, p: Pattern, text: string, k: nat)
    requires k <= |text| && InItem(it, text[..k]) && Begins(p, text[k..])
    ensures Begins(Cons(it, p), text)
  {
    var rest :| BeginsWith(p, text[k..], rest);
    var parts := [text[..k]] + rest;
    assert parts[1..] == rest;
    assert Join(parts) == text[..k] + Join(rest);
    assert text == text[..k] + text[k..];
    assert BeginsWith(Cons(it, p), text, parts);
  }

  lemma BeginsSingle(c: char, p: Pattern, text: string)
    ensures Begins(Cons(Single(c), p), text) <==> text != [] && (c == '.' || c == text[0]) && Begins(p, text[1..])
  {
    if Begins(Cons(Single(c), p), text) {
      var k := BeginsSplit(Single(c), p, text);
      assert k == |text[..k]| == 1;
      assert text[..1][0] == text[0];
    }
    if text != [] && (c == '.' || c == text[0]) && Begins(p, text[1..]) {
      assert text[..1] == [text[0]];
      BeginsJoin(Single(c), p, text, 1);
    }
  }

  /** The first k characters of the text may stand for `c*`. */
  ghost predicate Run(c: char, text: string, k: nat) {
    k <= |text| && forall i | 0 <= i < k :: c == '.' || text[i] == c
  }

  lemma BeginsStarred(c: char, p: Pattern, text: string)
    ensures Begins(Cons(Starred(c), p), text) <==> exists k: nat :: Run(c, text, k) && BeginsAt(p, text, k)
  {
    if Begins(Cons(Starred(c), p), text) {
      var k := BeginsSplit(Starred(c), p, text);
      assert BeginsAt(p, text, k);
      assert Run(c, text, k) by {
        forall i | 0 <= i < k ensures c == '.' || text[i] == c { assert text[..k][i] == text[i]; }
      }
    }
    if k: nat :| Run(c, text, k) && BeginsAt(p, text, k) {
      BeginsJoin(Starred(c), p, text, k);
    }
  }
}

/** grep's matcher and its reading of lines (user/grep.c). */
module Grep {
  import opened Patterns

  /** matchhere: does the pattern match at the start of the text? */
  method MatchHere(re: string, text: string) returns (r: bool)
    ensures r <==> Begins(Parse(re), text)
    decreases |re|, 0
  {
    if re == [] {
      BeginsEmpty(false, text);
      return true;
    }
    if |re| > 1 && re[1] == '*' {
      r := MatchStar(re[0], re[2..], text);
      return;
    }
    if re == "$" {
      BeginsEmpty(true, text);
      return text == [];
    }
    BeginsSingle(re[0], Parse(re[1..]), text);
    if text != [] && (re[0] == '.' || re[0] == text[0]) {
      r := MatchHere(re[1..], text[1..]);
      return;
    }
    return false;
  }

  /** matchstar: does `c*` and then the pattern match at the start of the text? */
  method MatchStar(c: char, re: string, text: string) returns (r: bool)
    ensures r <==> Begins(Cons(Starred(c), Parse(re)), text)
    decreases |re|, 1
  {
    ghost var p := Parse(re);
    BeginsStarred(c, p, text);
    var i: nat := 0;
    while true
      invariant Run(c, text, i)
      invariant forall k: nat | k < i :: !BeginsAt(p, text, k)
      decreases |text| - i
    {
      r := MatchHere(re, text[i..]);
      assert r <==> BeginsAt(p, text, i);
      if r { return; }
      if i == |text| || !(text[i] == c || c == '.') {
        return false;
      }
      i := i + 1;
    }
  }

  /** match: does the pattern match somewhere in the text? */
  method Match(re: string, text: string) returns (r: bool)
    ensures r <==> Matches(re, text)
  {
    if re != [] && re[0] == '^' {
      r := MatchHere(re[1..], text);
      return;
    }
    var i: nat := 0;
    while true
      invariant i <= |text|
      invariant forall k: nat | k < i :: !BeginsAt(Parse(re), text, k)
      decreases |text| - i
    {
      r := MatchHere(re, text[i..]);
      assert r <==> BeginsAt(Parse(re), text, i);
      if r { return; }
      if i == |text| { return false; }
      i := i + 1;
    }
  }

  // ---------------------------------------------------------------------------------------
  // Lines.

  const BUFFER := 1024

  predicate IsEnd(c: char) { c == '\n' || c == '\0' }

  /** The index of the first newline or NUL from p on, or the length. */
  ghost function LineEnd(s: string, p: nat): (j: nat)
    requires p <= |s|
    ensures p <= j <= |s| && (j < |s| ==> IsEnd(s[j])) && forall i | p <= i < j :: !IsEnd(s[i])
    decreases |s| - p
  {
    if p == |s| || IsEnd(s[p]) then p else LineEnd(s, p + 1)
  }

  /** What grep has written. */
  datatype Output = Nothing | Written(before: Output, line: string)

  /** The line from p to its newline at q, if it matches, after what was written before. */
  ghost function Line(re: string, s: string, p: nat, q: nat, out: Output): Output
    requires p <= q < |s|
  {
    if Matches(re, s[p..q]) then Written(out, s[p..q + 1]) else out
  }

  /** The lines from p on that match, as far as grep gets: to the first line that is not ended by a
      newline, is too long for the buffer or holds a NUL. */
  ghost function Lines(re: string, s: string, p: nat, out: Output): Output
    requires p <= |s|
    decreases |s| - p
  {
    var j := LineEnd(s, p);
    if j == |s| || s[j] == '\0' || j - p + 1 >= BUFFER then out
    else Lines(re, s, j + 1, Line(re, s, p, j, out))
  }

  /** No whole line is between p and e. */
  ghost predicate NoLine(s: string, p: nat, e: nat)
    requires p <= |s|
  {
    LineEnd(s, p) < e && LineEnd(s, p) < |s| ==> s[LineEnd(s, p)] == '\0'
  }

  lemma LinesNext(re: string, s: string, p: nat, q: nat, out: Output)
    requires p <= q < |s| && q - p + 1 < BUFFER && s[q] == '\n' && forall i | p <= i < q :: !IsEnd(s[i])
    ensures Lines(re, s, p, out) == Lines(re, s, q + 1, Line(re, s, p, q, out))
  {
    assert LineEnd(s, p) == q;
  }

  /** What is left in the buffer when no more can be read into it. */
  lemma LinesEnd(re: string, s: string, p: nat, e: nat, out: Output)
    requires p <= e <= |s| && NoLine(s, p, e) && (e == |s| || e - p + 1 == BUFFER)
    ensures Lines(re, s, p, out) == out
  {
  }

  /** The first m characters of the buffer are those of the input from a on. */
  ghost predicate Holds(buf: array<char>, p: nat, m: nat, s: string, a: nat)
    reads buf
  {
    p <= m <= buf.Length && a + m <= |s| && forall i | p <= i < m :: buf[i] == s[a + i]
  }

  /** strchr for a newline, in the string at p whose NUL is at m at the latest. */
  method FindNewline(buf: array<char>, p: nat, m: nat) returns (found: bool, q: nat)
    requires p <= m < buf.Length && buf[m] == '\0'
    ensures p <= q <= m && (forall i | p <= i < q :: !IsEnd(buf[i])) && IsEnd(buf[q]) && (found <==> buf[q] == '\n')
  {
    q := p;
    while buf[q] != '\n' && buf[q] != '\0'
      invariant p <= q <= m && forall i | p <= i < q :: !IsEnd(buf[i])
      decreases m - q
    {
      q := q + 1;
    }
    found := buf[q] == '\n';
  }

  /** read: some of what is left, as far as there is room; nothing only if there is no room or
      nothing left. */
  method Read(room: nat, left: nat) returns (n: nat)
    ensures n <= room && n <= left && (n == 0 <==> room == 0 || left == 0)
  {
    var most := if room < left then room else left;
    var some: int := *;
    n := if 0 < some < most then some else most;
  }

  /** The lines in the buffer: those that match are printed, and p is left after the last. */
  method PrintLines(re: string, buf: array<char>, m: nat, out0: Output, ghost s: string, ghost a: nat)
    returns (out: Output, p: nat)
    requires m < buf.Length == BUFFER && buf[m] == '\0' && Holds(buf, 0, m, s, a)
    modifies buf
    ensures p <= m && Holds(buf, p, m, s, a) && NoLine(s, a + p, a + m)
    ensures Lines(re, s, a + p, out) == Lines(re, s, a, out0)
  {
    out, p := out0, 0;
    var found, q := FindNewline(buf, p, m);
    while found
      invariant p <= q <= m && buf[m] == '\0' && Holds(buf, p, m, s, a)
      invariant (forall i | p <= i < q :: !IsEnd(buf[i])) && IsEnd(buf[q]) && (found <==> buf[q] == '\n')
      invariant Lines(re, s, a + p, out) == Lines(re, s, a, out0)
      decreases found, m - p
    {
      HoldsLine(buf, p, q, m, s, a);
      LinesNext(re, s, a + p, a + q, out);
      out := PrintLine(re, buf, p, q, m, out, s, a);
      p := q + 1;
      found, q := FindNewline(buf, p, m);
    }
    HoldsLine(buf, p, q, m, s, a);
  }

  lemma HoldsLine(buf: array<char>, p: nat, q: nat, m: nat, s: string, a: nat)
    requires p <= q <= m < buf.Length && Holds(buf, p, m, s, a) && (forall i | p <= i < q :: !IsEnd(buf[i])) &&
             IsEnd(buf[q])
    ensures forall i | a + p <= i < a + q :: !IsEnd(s[i])
    ensures if buf[q] == '\n' && q < m then s[a + q] == '\n' else NoLine(s, a + p, a + m)
  {
    assert q < m ==> buf[q] == s[a + q];
    forall i | a + p <= i < a + q ensures !IsEnd(s[i]) {
      assert buf[i - a] == s[a + (i - a)];
    }
  }

  /** The newline is put back only for printing. */
  method PrintLine(re: string, buf: array<char>, p: nat, q: nat, m: nat, out0: Output, ghost s: string, ghost a: nat)
    returns (out: Output)
    requires p <= q < m < buf.Length && Holds(buf, p, m, s, a) && s[a + q] == '\n'
    modifies buf
    ensures buf[m] == old(buf[m]) && Holds(buf, q + 1, m, s, a)
    ensures out == Line(re, s, a + p, a + q, out0)
  {
    out := out0;
    buf[q] := '\0';
    assert buf[p..q] == s[a + p..a + q];
    var r := Match(re, buf[p..q]);
    if r {
      buf[q] := '\n';
      assert buf[p..q + 1] == s[a + p..a + q + 1];
      out := Written(out, buf[p..q + 1]);
    }
  }

  /** grep prints the same whatever parts the input is read in. */
  method Grep(re: string, input: string, buf: array<char>) returns (out: Output)
    requires buf.Length == BUFFER
    modifies buf
    ensures out == Lines(re, input, 0, Nothing)
  {
    var m, done: nat := 0, 0;       // what waits in the buffer, and what was read in all
    out := Nothing;
    var n: nat := Read(buf.Length - m - 1, |input| - done);
    while n > 0
      invariant 0 <= m <= done <= |input| && m < buf.Length
      invariant n <= buf.Length - m - 1 && n <= |input| - done && (n == 0 <==> m == buf.Length - 1 || done == |input|)
      invariant Holds(buf, 0, m, input, done - m) && NoLine(input, done - m, done)
      invariant Lines(re, input, done - m, out) == Lines(re, input, 0, Nothing)
      decreases |input| - done
    {
      Append(buf, m, n, input, done);
      m, done := m + n, done + n;
      var p;
      out, p := PrintLines(re, buf, m, out, input, done - m);
      Drop(buf, p, m, input, done - m);
      m := m - p;
      n := Read(buf.Length - m - 1, |input| - done);
    }
    LinesEnd(re, input, done - m, done, out);
  }

  /** The n characters read, and a NUL, go to the buffer after the m it holds. */
  method Append(buf: array<char>, m: nat, n: nat, input: string, done: nat)
    requires m + n < buf.Length && m <= done && done + n <= |input| && Holds(buf, 0, m, input, done - m)
    modifies buf
    ensures Holds(buf, 0, m + n, input, done - m) && buf[m + n] == '\0'
  {
    forall i | m <= i < m + n { buf[i] := input[done - m + i]; }
    buf[m + n] := '\0';
  }

  /** The p characters done with leave the buffer. */
  method Drop(buf: array<char>, p: nat, m: nat, ghost s: string, ghost a: nat)
    requires Holds(buf, p, m, s, a)
    modifies buf
    ensures Holds(buf, 0, m - p, s, a + p)
  {
    forall i | 0 <= i < m - p { buf[i] := buf[p + i]; }
  }
}

/** What grep prints of an input of lines (user/grep.c). */
module GrepOutput {
  import opened Patterns
  import opened Grep

  /** A line that fits the buffer. */
  predicate Fits(line: string) { |line| + 1 < BUFFER && forall i | 0 <= i < |line| :: !IsEnd(line[i]) }

  /** The lines, each with its newline. */
  function Joined(lines: seq<string>): string { if lines == [] then "" else lines[0] + ("\n" + Joined(lines[1..])) }

  /** The lines that match, in order. */
  ghost function Matching(re: string, lines: seq<string>): seq<string> {
    if lines == [] then [] else (if Matches(re, lines[0]) then [lines[0]] else []) + Matching(re, lines[1..])
  }

  ghost function Wrote(out: Output, lines: seq<string>): Output
    decreases |lines|
  {
    if lines == [] then out else Wrote(Written(out, lines[0] + "\n"), lines[1..])
  }

  lemma FirstLine(s: string, p: nat, q: nat, line: string, rest: string)
    requires p <= |s| && s[p..] == line + ("\n" + rest) && q == p + |line|
    ensures q < |s| && s[p..q] == line && s[q] == '\n' && s[p..q + 1] == line + "\n" && s[q + 1..] == rest
  {
    var t := s[p..];
    assert t[..|line|] == line && t[|line|] == '\n' && t[..|line| + 1] == line + "\n" && t[|line| + 1..] == rest;
    assert s[p..q] == t[..|line|] && s[p..q + 1] == t[..|line| + 1] && s[q + 1..] == t[|line| + 1..];
  }

  lemma FirstWritten(re: string, lines: seq<string>, out: Output)
    requires lines != []
    ensures Wrote(out, Matching(re, lines))
         == Wrote(if Matches(re, lines[0]) then Written(out, lines[0] + "\n") else out, Matching(re, lines[1..]))
  {
    var rest := Matching(re, lines[1..]);
    assert ([lines[0]] + rest)[1..] == rest && [] + rest == rest;
  }

  lemma {:induction false} LinesFrom(re: string, s: string, p: nat, lines: seq<string>, out: Output)
    requires p <= |s| && s[p..] == Joined(lines) && forall i | 0 <= i < |lines| :: Fits(lines[i])
    ensures Lines(re, s, p, out) == Wrote(out, Matching(re, lines))
    decreases |lines|
  {
    if lines == [] {
      assert |s[p..]| == |s| - p;
    } else {
      var q := p + |lines[0]|;
      FirstLine(s, p, q, lines[0], Joined(lines[1..]));
      assert forall i | p <= i < q :: s[i] == s[p..q][i - p];
      LinesNext(re, s, p, q, out);
      LinesFrom(re, s, q + 1, lines[1..], Line(re, s, p, q, out));
      FirstWritten(re, lines, out);
    }
  }

  /** Of an input of lines that fit the buffer, grep prints those that match, whole and in order. */
  lemma PrintsMatching(re: string, lines: seq<string>)
    requires forall i | 0 <= i < |lines| :: Fits(lines[i])
    ensures Lines(re, Joined(lines), 0, Nothing) == Wrote(Nothing, Matching(re, lines))
  {
    LinesFrom(re, Joined(lines), 0, lines, Nothing);
  }
}
