/** The shell's command language (user/sh.c): its words and symbols, its trees, the trees a line
    stands for, and a way to write every tree as a line. */
module ShellSyntax {

  const MAXARGS := 10

  datatype Kind = Input | Output | Append        // <  >  >>

  /** A command; the words are strings, or places in the line. */
  datatype Cmd<W> =
    | Exec(args: seq<W>)
    | Redir(cmd: Cmd<W>, file: W, kind: Kind)
    | Pipe(left: Cmd<W>, right: Cmd<W>)
    | List(left: Cmd<W>, right: Cmd<W>)
    | Back(cmd: Cmd<W>)

  // ---------------------------------------------------------------------------------------
  // Words and symbols.

  predicate IsSpace(c: char) { c == ' ' || c == '\t' || c == '\r' || c == '\n' || c == '\U{000B}' }

  predicate IsSymbol(c: char) { c == '<' || c == '|' || c == '>' || c == '&' || c == ';' || c == '(' || c == ')' }

  predicate IsWordChar(c: char) { !IsSpace(c) && !IsSymbol(c) }

  datatype Tok = Sym(c: char) | More | Word(w: string)        // More is >>

  datatype Toks = Nil | Cons(head: Tok, tail: Toks)

  function Len(ts: Toks): nat { if ts.Nil? then 0 else 1 + Len(ts.tail) }

  /** The number of word characters the string begins with. */
  function WordLen(s: string): (n: nat)
    ensures n <= |s| && (n < |s| ==> !IsWordChar(s[n])) && forall i | 0 <= i < n :: IsWordChar(s[i])
  {
    if s == [] || !IsWordChar(s[0]) then 0 else 1 + WordLen(s[1..])
  }

  /** The tokens of a line. */
  function Lex(s: string): Toks
    decreases |s|
  {
    if s == [] then Nil
    else if IsSpace(s[0]) then Lex(s[1..])
    else if |s| > 1 && s[0] == '>' && s[1] == '>' then Cons(More, Lex(s[2..]))
    else if IsSymbol(s[0]) then Cons(Sym(s[0]), Lex(s[1..]))
    else Cons(Word(s[..WordLen(s)]), Lex(s[WordLen(s)..]))
  }

  // ---------------------------------------------------------------------------------------
  // The tree of a line.

  datatype Error = Syntax | MissingFile | MissingParen | TooManyArgs | NoBlock

  datatype Outcome = Ok(cmd: Cmd<string>, rest: Toks) | Err(e: Error)

  /** parseexec adds arguments to a command around which redirections have been put already. */
  function AddArg<W>(c: Cmd<W>, w: W): Cmd<W> {
    match c
    case Exec(args) => Exec(args + [w])
    case Redir(c1, file, kind) => Redir(AddArg(c1, w), file, kind)
    case _ => c
  }

  predicate IsRedir(t: Tok) { t == Sym('<') || t == Sym('>') || t == More }

  function KindOf(t: Tok): Kind { if t == Sym('<') then Input else if t == Sym('>') then Output else Append }

  function Redirs(c: Cmd<string>, ts: Toks): (r: Outcome)
    ensures r != Err(NoBlock)
    ensures r.Ok? ==> Len(r.rest) <= Len(ts)
    decreases ts
  {
    if ts.Nil? || !IsRedir(ts.head) then Ok(c, ts)
    else if ts.tail.Nil? || !ts.tail.head.Word? then Err(MissingFile)
    else Redirs(Redir(c, ts.tail.head.w, KindOf(ts.head)), ts.tail.tail)
  }

  predicate EndsArgs(t: Tok) { t == Sym('|') || t == Sym(')') || t == Sym('&') || t == Sym(';') }

  function Args(c: Cmd<string>, argc: nat, ts: Toks): (r: Outcome)
    ensures r != Err(NoBlock)
    ensures r.Ok? ==> Len(r.rest) <= Len(ts)
    decreases Len(ts)
  {
    if ts.Nil? || EndsArgs(ts.head) then Ok(c, ts)
    else if !ts.head.Word? then Err(Syntax)
    else if argc + 1 >= MAXARGS then Err(TooManyArgs)
    else
      var r := Redirs(AddArg(c, ts.head.w), ts.tail);
      if r.Err? then r else Args(r.cmd, argc + 1, r.rest)
  }

  function ExecPart(ts: Toks): (r: Outcome)
    ensures r != Err(NoBlock)
    ensures r.Ok? ==> Len(r.rest) <= Len(ts)
    decreases Len(ts), 1
  {
    if ts.Cons? && ts.head == Sym('(') then Block(ts) else
      var r := Redirs(Exec([]), ts);
      if r.Err? then r else Args(r.cmd, 0, r.rest)
  }

  function Block(ts: Toks): (r: Outcome)
    ensures r == Err(NoBlock) <==> ts.Nil? || ts.head != Sym('(')
    ensures r.Ok? ==> Len(r.rest) <= Len(ts)
    decreases Len(ts), 0
  {
    if ts.Nil? || ts.head != Sym('(') then Err(NoBlock) else
      var r := Line(ts.tail);
      if r.Err? then r
      else if r.rest.Nil? || r.rest.head != Sym(')') then Err(MissingParen)
      else Redirs(r.cmd, r.rest.tail)
  }

  function PipePart(ts: Toks): (r: Outcome)
    ensures r != Err(NoBlock)
    ensures r.Ok? ==> Len(r.rest) <= Len(ts)
    decreases Len(ts), 2
  {
    var l := ExecPart(ts);
    if l.Err? || l.rest.Nil? || l.rest.head != Sym('|') then l else
      var r := PipePart(l.rest.tail);
      if r.Err? then r else Ok(Pipe(l.cmd, r.cmd), r.rest)
  }

  /** One Back for each & that follows. */
  function Backs(c: Cmd<string>, ts: Toks): (r: Outcome)
    ensures r.Ok? && Len(r.rest) <= Len(ts)
    decreases ts
  {
    if ts.Nil? || ts.head != Sym('&') then Ok(c, ts) else Backs(Back(c), ts.tail)
  }

  function Line(ts: Toks): (r: Outcome)
    ensures r != Err(NoBlock)
    ensures r.Ok? ==> Len(r.rest) <= Len(ts)
    decreases Len(ts), 3
  {
    var p := PipePart(ts);
    if p.Err? then p else
      var l := Backs(p.cmd, p.rest);
      if l.rest.Nil? || l.rest.head != Sym(';') then l else
        var r := Line(l.rest.tail);
        if r.Err? then r else Ok(List(l.cmd, r.cmd), r.rest)
  }

  /** The tree of a whole line; nothing may be left over. */
  function Parse(s: string): Outcome {
    var r := Line(Lex(s));
    if r.Ok? && r.rest.Cons? then Err(Syntax) else r
  }

  // ---------------------------------------------------------------------------------------
  // A line for every tree.

  predicate LegalWord(w: string) { w != [] && forall i | 0 <= i < |w| :: IsWordChar(w[i]) }

  predicate Legal(c: Cmd<string>) {
    match c
    case Exec(args) => |args| < MAXARGS && forall i | 0 <= i < |args| :: LegalWord(args[i])
    case Redir(c1, file, _) => Legal(c1) && LegalWord(file)
    case Pipe(l, r) => Legal(l) && Legal(r)
    case List(l, r) => Legal(l) && Legal(r)
    case Back(c1) => Legal(c1)
  }

  function Op(kind: Kind): string { match kind case Input => "<" case Output => ">" case Append => ">>" }

  function PrintArgs(args: seq<string>, rest: string): string {
    if args == [] then rest else args[0] + (" " + PrintArgs(args[1..], rest))
  }

  /** The tree in parentheses throughout, then `rest`. */
  function Print(c: Cmd<string>, rest: string): string {
    match c
    case Exec(args) => PrintArgs(args, rest)
    case Redir(c1, file, kind) => "(" + Print(c1, ")" + (Op(kind) + (file + rest)))
    case Pipe(l, r) => "(" + Print(l, ")" + ("|" + ("(" + Print(r, ")" + rest))))
    case List(l, r) => "(" + Print(l, ")" + (";" + ("(" + Print(r, ")" + rest))))
    case Back(c1) => "(" + Print(c1, ")" + ("&" + rest))
  }

  // Its tokens.

  function OpTok(kind: Kind): Tok { match kind case Input => Sym('<') case Output => Sym('>') case Append => More }

  function ArgToks(args: seq<string>, rest: Toks): Toks {
    if args == [] then rest else Cons(Word(args[0]), ArgToks(args[1..], rest))
  }

  function CmdToks(c: Cmd<string>, rest: Toks): Toks {
    match c
    case Exec(args) => ArgToks(args, rest)
    case Redir(c1, file, kind) => Cons(Sym('('), CmdToks(c1, Cons(Sym(')'), Cons(OpTok(kind), Cons(Word(file), rest)))))
    case Pipe(l, r) => Cons(Sym('('),
      CmdToks(l, Cons(Sym(')'), Cons(Sym('|'), Cons(Sym('('), CmdToks(r, Cons(Sym(')'), rest)))))))
    case List(l, r) => Cons(Sym('('),
      CmdToks(l, Cons(Sym(')'), Cons(Sym(';'), Cons(Sym('('), CmdToks(r, Cons(Sym(')'), rest)))))))
    case Back(c1) => Cons(Sym('('), CmdToks(c1, Cons(Sym(')'), Cons(Sym('&'), rest))))
  }

  lemma LexSym(c: char, s: string)
    requires IsSymbol(c) && c != '>'
    ensures Lex([c] + s) == Cons(Sym(c), Lex(s))
  {
    assert ([c] + s)[1..] == s;
  }

  lemma {:induction false} WordLenIs(w: string, s: string)
    requires (forall i | 0 <= i < |w| :: IsWordChar(w[i])) && (s == [] || !IsWordChar(s[0]))
    ensures WordLen(w + s) == |w|
  {
    if w == [] {
      assert w + s == s;
    } else {
      WordLenIs(w[1..], s);
      assert (w + s)[1..] == w[1..] + s;
    }
  }

  lemma LexWord(w: string, s: string)
    requires LegalWord(w) && (s == [] || !IsWordChar(s[0]))
    ensures Lex(w + s) == Cons(Word(w), Lex(s))
  {
    WordLenIs(w, s);
    assert (w + s)[0] == w[0];
    assert (w + s)[..|w|] == w && (w + s)[|w|..] == s;
  }

  lemma LexOp(kind: Kind, s: string)
    requires s != [] && s[0] != '>'
    ensures Lex(Op(kind) + s) == Cons(OpTok(kind), Lex(s))
  {
    var t := Op(kind) + s;
    match kind
    case Input => assert t[1..] == s;
    case Output => assert t[1..] == s && t[1] == s[0];
    case Append => assert t[2..] == s;
  }

  lemma {:induction false} LexArgs(args: seq<string>, s: string)
    requires forall i | 0 <= i < |args| :: LegalWord(args[i])
    ensures Lex(PrintArgs(args, s)) == ArgToks(args, Lex(s))
  {
    if args != [] {
      var t := PrintArgs(args[1..], s);
      LexArgs(args[1..], s);
      assert (" " + t)[0] == ' ' && (" " + t)[1..] == t;
      LexWord(args[0], " " + t);
    }
  }

  /** The line printed for a tree has the tree's tokens. */
  lemma {:induction false} LexPrint(c: Cmd<string>, s: string)
    requires Legal(c) && (s == [] || !IsWordChar(s[0]))
    ensures Lex(Print(c, s)) == CmdToks(c, Lex(s))
    decreases c, 1
  {
    match c
    case Exec(args) => LexArgs(args, s);
    case Redir(c1, file, kind) =>
      LexWord(file, s);
      LexOp(kind, file + s);
      LexSym(')', Op(kind) + (file + s));
      LexPrint(c1, ")" + (Op(kind) + (file + s)));
      LexSym('(', Print(c1, ")" + (Op(kind) + (file + s))));
    case Pipe(l, r) => LexPair(c, l, '|', r, s);
    case List(l, r) => LexPair(c, l, ';', r, s);
    case Back(c1) =>
      LexSym('&', s);
      LexSym(')', "&" + s);
      LexPrint(c1, ")" + ("&" + s));
      LexSym('(', Print(c1, ")" + ("&" + s)));
  }

  lemma {:induction false} LexPair(c: Cmd<string>, l: Cmd<string>, op: char, r: Cmd<string>, s: string)
    requires c == Pipe(l, r) || c == List(l, r)
    requires Legal(l) && Legal(r) && IsSymbol(op) && op != '>'
    ensures Lex("(" + Print(l, ")" + ([op] + ("(" + Print(r, ")" + s))))) ==
            Cons(Sym('('), CmdToks(l, Cons(Sym(')'),
              Cons(Sym(op), Cons(Sym('('), CmdToks(r, Cons(Sym(')'), Lex(s))))))))
    decreases c, 0
  {
    var t := Print(r, ")" + s);
    LexSym(')', s);
    LexPrint(r, ")" + s);
    LexSym('(', t);
    LexSym(op, "(" + t);
    LexSym(')', [op] + ("(" + t));
    LexPrint(l, ")" + ([op] + ("(" + t)));
    LexSym('(', Print(l, ")" + ([op] + ("(" + t))));
  }

  // And back.

  /** What follows ends a line, inside a block or outside. */
  predicate EndsLine(ts: Toks) { ts.Nil? || ts.head == Sym(')') }

  lemma {:induction false} ArgsOf(args: seq<string>, n: nat, ts: Toks)
    requires n <= |args| < MAXARGS && EndsLine(ts)
    ensures Args(Exec(args[..n]), n, ArgToks(args[n..], ts)) == Ok(Exec(args), ts)
    decreases |args| - n
  {
    if n == |args| {
      assert args[..n] == args;
    } else {
      var more := ArgToks(args[n + 1..], ts);
      assert args[n..][0] == args[n] && args[n..][1..] == args[n + 1..] && args[..n] + [args[n]] == args[..n + 1];
      assert more.Cons? ==> !IsRedir(more.head);
      assert Redirs(Exec(args[..n + 1]), more) == Ok(Exec(args[..n + 1]), more);
      ArgsOf(args, n + 1, ts);
    }
  }

  lemma ExecOf(args: seq<string>, ts: Toks)
    requires |args| < MAXARGS && EndsLine(ts)
    ensures Line(ArgToks(args, ts)) == Ok(Exec(args), ts)
  {
    ArgsOf(args, 0, ts);
    assert args[..0] == [] && args[0..] == args;
    assert ExecPart(ArgToks(args, ts)) == Ok(Exec(args), ts);
  }

  /** A block, up to what is done with it. */
  lemma BlockOf(c: Cmd<string>, ts: Toks)
    requires Line(CmdToks(c, Cons(Sym(')'), ts))) == Ok(c, Cons(Sym(')'), ts))
    ensures ExecPart(Cons(Sym('('), CmdToks(c, Cons(Sym(')'), ts)))) == Redirs(c, ts)
  {
  }

  lemma RedirOf(c: Cmd<string>, file: string, kind: Kind, ts: Toks)
    requires EndsLine(ts) &&
             ExecPart(CmdToks(Redir(c, file, kind), ts)) == Redirs(c, Cons(OpTok(kind), Cons(Word(file), ts)))
    ensures Line(CmdToks(Redir(c, file, kind), ts)) == Ok(Redir(c, file, kind), ts)
  {
    assert Redirs(c, Cons(OpTok(kind), Cons(Word(file), ts))) == Ok(Redir(c, file, kind), ts);
  }

  lemma PipeOf(l: Cmd<string>, r: Cmd<string>, ts: Toks, right: Toks)
    requires EndsLine(ts) && right == Cons(Sym('('), CmdToks(r, Cons(Sym(')'), ts))) && ExecPart(right) == Redirs(r, ts)
    requires ExecPart(CmdToks(Pipe(l, r), ts)) == Redirs(l, Cons(Sym('|'), right))
    ensures Line(CmdToks(Pipe(l, r), ts)) == Ok(Pipe(l, r), ts)
  {
    assert PipePart(right) == Ok(r, ts);
    assert PipePart(CmdToks(Pipe(l, r), ts)) == Ok(Pipe(l, r), ts);
  }

  lemma ListOf(l: Cmd<string>, r: Cmd<string>, ts: Toks, right: Toks)
    requires EndsLine(ts) && right == Cons(Sym('('), CmdToks(r, Cons(Sym(')'), ts))) && ExecPart(right) == Redirs(r, ts)
    requires ExecPart(CmdToks(List(l, r), ts)) == Redirs(l, Cons(Sym(';'), right))
    ensures Line(CmdToks(List(l, r), ts)) == Ok(List(l, r), ts)
  {
    assert Line(right) == Ok(r, ts);
  }

  lemma BackOf(c: Cmd<string>, ts: Toks)
    requires EndsLine(ts) && ExecPart(CmdToks(Back(c), ts)) == Redirs(c, Cons(Sym('&'), ts))
    ensures Line(CmdToks(Back(c), ts)) == Ok(Back(c), ts)
  {
    assert Backs(c, Cons(Sym('&'), ts)) == Ok(Back(c), ts);
  }

  /** The tokens of a tree are parsed to the tree. */
  lemma {:induction false} LineOf(c: Cmd<string>, ts: Toks)
    requires Legal(c) && EndsLine(ts)
    ensures Line(CmdToks(c, ts)) == Ok(c, ts)
    decreases c, 1
  {
    match c
    case Exec(args) => ExecOf(args, ts);
    case Redir(c1, file, kind) =>
      BlockParsed(c, c1, Cons(OpTok(kind), Cons(Word(file), ts)));
      RedirOf(c1, file, kind, ts);
    case Pipe(l, r) =>
      var right := Cons(Sym('('), CmdToks(r, Cons(Sym(')'), ts)));
      BlockParsed(c, l, Cons(Sym('|'), right));
      BlockParsed(c, r, ts);
      PipeOf(l, r, ts, right);
    case List(l, r) =>
      var right := Cons(Sym('('), CmdToks(r, Cons(Sym(')'), ts)));
      BlockParsed(c, l, Cons(Sym(';'), right));
      BlockParsed(c, r, ts);
      ListOf(l, r, ts, right);
    case Back(c1) =>
      BlockParsed(c, c1, Cons(Sym('&'), ts));
      BackOf(c1, ts);
  }

  lemma {:induction false} BlockParsed(c: Cmd<string>, c1: Cmd<string>, ts: Toks)
    requires Legal(c1) && c1 < c
    ensures ExecPart(Cons(Sym('('), CmdToks(c1, Cons(Sym(')'), ts)))) == Redirs(c1, ts)
    decreases c, 0
  {
    LineOf(c1, Cons(Sym(')'), ts));
    BlockOf(c1, ts);
  }

  /** Every tree of legal words can be written as a line and read back. */
  lemma RoundTrip(c: Cmd<string>)
    requires Legal(c)
    ensures Parse(Print(c, "")) == Ok(c, Nil)
  {
    LexPrint(c, "");
    LineOf(c, Nil);
  }

  // ---------------------------------------------------------------------------------------
  // Every line that is accepted has a tree that can be written.

  predicate LegalToks(ts: Toks) { ts.Cons? ==> (ts.head.Word? ==> LegalWord(ts.head.w)) && LegalToks(ts.tail) }

  lemma {:induction false} LexLegal(s: string)
    ensures LegalToks(Lex(s))
    decreases |s|
  {
    if s != [] {
      if IsSpace(s[0]) { LexLegal(s[1..]); }
      else if |s| > 1 && s[0] == '>' && s[1] == '>' { LexLegal(s[2..]); }
      else if IsSymbol(s[0]) { LexLegal(s[1..]); }
      else { LexLegal(s[WordLen(s)..]); }
    }
  }

  /** The arguments of the command at the bottom of the redirections. */
  function Argc(c: Cmd<string>): nat {
    match c case Exec(args) => |args| case Redir(c1, _, _) => Argc(c1) case _ => 0
  }

  lemma {:induction false} AddArgLegal(c: Cmd<string>, w: string)
    requires Legal(c) && LegalWord(w) && Argc(c) + 1 < MAXARGS
    ensures Legal(AddArg(c, w)) && Argc(AddArg(c, w)) <= Argc(c) + 1
  {
    if c.Redir? { AddArgLegal(c.cmd, w); }
  }

  ghost predicate LegalOutcome(r: Outcome) { r.Ok? ==> Legal(r.cmd) && LegalToks(r.rest) }

  lemma {:induction false} RedirsLegal(c: Cmd<string>, ts: Toks)
    requires Legal(c) && LegalToks(ts)
    ensures LegalOutcome(Redirs(c, ts)) && (Redirs(c, ts).Ok? ==> Argc(Redirs(c, ts).cmd) == Argc(c))
    decreases ts
  {
    if ts.Cons? && IsRedir(ts.head) && ts.tail.Cons? && ts.tail.head.Word? {
      RedirsLegal(Redir(c, ts.tail.head.w, KindOf(ts.head)), ts.tail.tail);
    }
  }

  lemma {:induction false} ArgsLegal(c: Cmd<string>, argc: nat, ts: Toks)
    requires Legal(c) && LegalToks(ts) && Argc(c) <= argc
    ensures LegalOutcome(Args(c, argc, ts))
    decreases Len(ts)
  {
    if ts.Cons? && ts.head.Word? && argc + 1 < MAXARGS {
      AddArgLegal(c, ts.head.w);
      RedirsLegal(AddArg(c, ts.head.w), ts.tail);
      var r := Redirs(AddArg(c, ts.head.w), ts.tail);
      if r.Ok? { ArgsLegal(r.cmd, argc + 1, r.rest); }
    }
  }

  lemma {:induction false} LineLegal(ts: Toks)
    requires LegalToks(ts)
    ensures LegalOutcome(Line(ts))
    decreases Len(ts), 3
  {
    PipeLegal(ts);
    var p := PipePart(ts);
    if p.Ok? {
      BacksLegal(p.cmd, p.rest);
      var l := Backs(p.cmd, p.rest);
      if l.rest.Cons? && l.rest.head == Sym(';') { LineLegal(l.rest.tail); }
    }
  }

  lemma {:induction false} BacksLegal(c: Cmd<string>, ts: Toks)
    requires Legal(c) && LegalToks(ts)
    ensures LegalOutcome(Backs(c, ts))
    decreases ts
  {
    if ts.Cons? && ts.head == Sym('&') { BacksLegal(Back(c), ts.tail); }
  }

  lemma {:induction false} PipeLegal(ts: Toks)
    requires LegalToks(ts)
    ensures LegalOutcome(PipePart(ts))
    decreases Len(ts), 2
  {
    ExecLegal(ts);
    var l := ExecPart(ts);
    if l.Ok? && l.rest.Cons? && l.rest.head == Sym('|') { PipeLegal(l.rest.tail); }
  }

  lemma {:induction false} ExecLegal(ts: Toks)
    requires LegalToks(ts)
    ensures LegalOutcome(ExecPart(ts))
    decreases Len(ts), 1
  {
    if ts.Cons? && ts.head == Sym('(') {
      LineLegal(ts.tail);
      var r := Line(ts.tail);
      if r.Ok? && r.rest.Cons? { RedirsLegal(r.cmd, r.rest.tail); }
    } else {
      RedirsLegal(Exec([]), ts);
      var r := Redirs(Exec([]), ts);
      if r.Ok? { ArgsLegal(r.cmd, 0, r.rest); }
    }
  }

  /** Printing the tree of an accepted line gives a line with the same tree. */
  lemma PrintedForm(s: string)
    requires Parse(s).Ok?
    ensures Legal(Parse(s).cmd) && Parse(Print(Parse(s).cmd, "")) == Parse(s)
  {
    LexLegal(s);
    LineLegal(Lex(s));
    RoundTrip(Parse(s).cmd);
  }

  // ---------------------------------------------------------------------------------------
  // No word is lost, and none comes twice.

  ghost function TokWords(ts: Toks): multiset<string> {
    if ts.Nil? then multiset{}
    else (if ts.head.Word? then multiset{ts.head.w} else multiset{}) + TokWords(ts.tail)
  }

  ghost function CmdWords(c: Cmd<string>): multiset<string> {
    match c
    case Exec(args) => multiset(args)
    case Redir(c1, file, _) => CmdWords(c1) + multiset{file}
    case Pipe(l, r) => CmdWords(l) + CmdWords(r)
    case List(l, r) => CmdWords(l) + CmdWords(r)
    case Back(c1) => CmdWords(c1)
  }

  /** The words of the outcome, in the tree and not yet parsed. */
  ghost predicate Keeps(r: Outcome, words: multiset<string>) {
    r.Ok? ==> CmdWords(r.cmd) + TokWords(r.rest) == words
  }

  predicate TakesArgs(c: Cmd<string>) { c.Exec? || (c.Redir? && TakesArgs(c.cmd)) }

  lemma {:induction false} AddArgWords(c: Cmd<string>, w: string)
    requires TakesArgs(c)
    ensures TakesArgs(AddArg(c, w)) && CmdWords(AddArg(c, w)) == CmdWords(c) + multiset{w}
  {
    if c.Redir? { AddArgWords(c.cmd, w); }
  }

  lemma Regroup(a: multiset<string>, w: multiset<string>, b: multiset<string>)
    ensures a + w + b == a + (w + b)
  {
  }

  lemma {:induction false} RedirsWords(c: Cmd<string>, ts: Toks, words: multiset<string>)
    requires CmdWords(c) + TokWords(ts) == words
    ensures Keeps(Redirs(c, ts), words) && (TakesArgs(c) && Redirs(c, ts).Ok? ==> TakesArgs(Redirs(c, ts).cmd))
    decreases ts
  {
    if ts.Cons? && IsRedir(ts.head) && ts.tail.Cons? && ts.tail.head.Word? {
      var w := ts.tail.head.w;
      Regroup(CmdWords(c), multiset{w}, TokWords(ts.tail.tail));
      RedirsWords(Redir(c, w, KindOf(ts.head)), ts.tail.tail, words);
    }
  }

  lemma {:induction false} ArgsWords(c: Cmd<string>, argc: nat, ts: Toks, words: multiset<string>, r: Outcome)
    requires TakesArgs(c) && CmdWords(c) + TokWords(ts) == words && r == Args(c, argc, ts)
    ensures Keeps(r, words)
    decreases Len(ts)
  {
    if ts.Cons? && ts.head.Word? && argc + 1 < MAXARGS {
      var next := Redirs(AddArg(c, ts.head.w), ts.tail);
      if next.Ok? {
        ArgWords(c, ts, next, words);
        ArgsWords(next.cmd, argc + 1, next.rest, words, r);
      }
    }
  }

  /** One argument, and the redirections after it. */
  lemma ArgWords(c: Cmd<string>, ts: Toks, r: Outcome, words: multiset<string>)
    requires TakesArgs(c) && CmdWords(c) + TokWords(ts) == words && ts.Cons? && ts.head.Word?
    requires r == Redirs(AddArg(c, ts.head.w), ts.tail)
    ensures Keeps(r, words) && (r.Ok? ==> TakesArgs(r.cmd))
  {
    var w := ts.head.w;
    AddArgWords(c, w);
    assert CmdWords(AddArg(c, w)) + TokWords(ts.tail) == words by {
      Regroup(CmdWords(c), multiset{w}, TokWords(ts.tail));
    }
    RedirsWords(AddArg(c, w), ts.tail, words);
  }

  lemma {:induction false} BacksWords(c: Cmd<string>, ts: Toks)
    ensures Keeps(Backs(c, ts), CmdWords(c) + TokWords(ts))
    decreases ts
  {
    if ts.Cons? && ts.head == Sym('&') { BacksWords(Back(c), ts.tail); }
  }

  lemma {:induction false} LineWords(ts: Toks)
    ensures Keeps(Line(ts), TokWords(ts))
    decreases Len(ts), 3
  {
    PipeWords(ts);
    var p := PipePart(ts);
    if p.Ok? {
      BacksWords(p.cmd, p.rest);
      var l := Backs(p.cmd, p.rest);
      if l.rest.Cons? && l.rest.head == Sym(';') { LineWords(l.rest.tail); }
    }
  }

  lemma {:induction false} PipeWords(ts: Toks)
    ensures Keeps(PipePart(ts), TokWords(ts))
    decreases Len(ts), 2
  {
    ExecWords(ts);
    var l := ExecPart(ts);
    if l.Ok? && l.rest.Cons? && l.rest.head == Sym('|') { PipeWords(l.rest.tail); }
  }

  lemma {:induction false} ExecWords(ts: Toks)
    ensures Keeps(ExecPart(ts), TokWords(ts))
    decreases Len(ts), 1
  {
    if ts.Cons? && ts.head == Sym('(') {
      LineWords(ts.tail);
      var r := Line(ts.tail);
      if r.Ok? && r.rest.Cons? && r.rest.head == Sym(')') { RedirsWords(r.cmd, r.rest.tail, TokWords(ts)); }
    } else {
      RedirsWords(Exec([]), ts, TokWords(ts));
      var r := Redirs(Exec([]), ts);
      if r.Ok? { ArgsWords(r.cmd, 0, r.rest, TokWords(ts), ExecPart(ts)); }
    }
  }

  /** The words of an accepted line are those of its tree, each as often. */
  lemma WordsConserved(s: string)
    requires Parse(s).Ok?
    ensures CmdWords(Parse(s).cmd) == TokWords(Lex(s))
  {
    LineWords(Lex(s));
  }
}

/** The shell's parser (user/sh.c), which moves a position along the line, and nulterminate. */
module ShellParser {
  import opened ShellSyntax

  /** A word by its place in the line. */
  datatype Span = Span(q: nat, eq: nat)

  datatype Parsed = Tree(cmd: Cmd<Span>) | Panic(e: Error)

  function At(s: string, w: Span): string { if w.q <= w.eq <= |s| then s[w.q..w.eq] else [] }

  /** The span is a whole word of the line. */
  predicate WordAt(s: string, w: Span) {
    w.q < w.eq <= |s| && (forall i | w.q <= i < w.eq :: IsWordChar(s[i])) && (w.eq < |s| ==> !IsWordChar(s[w.eq]))
  }

  predicate Placed(s: string, c: Cmd<Span>) {
    match c
    case Exec(args) => forall i | 0 <= i < |args| :: WordAt(s, args[i])
    case Redir(c1, file, _) => Placed(s, c1) && WordAt(s, file)
    case Pipe(l, r) => Placed(s, l) && Placed(s, r)
    case List(l, r) => Placed(s, l) && Placed(s, r)
    case Back(c1) => Placed(s, c1)
  }

  /** The tree with the words themselves. */
  function Text(s: string, c: Cmd<Span>): Cmd<string> {
    match c
    case Exec(args) => Exec(Texts(s, args))
    case Redir(c1, file, kind) => Redir(Text(s, c1), At(s, file), kind)
    case Pipe(l, r) => Pipe(Text(s, l), Text(s, r))
    case List(l, r) => List(Text(s, l), Text(s, r))
    case Back(c1) => Back(Text(s, c1))
  }

  function Texts(s: string, args: seq<Span>): seq<string> {
    seq(|args|, i requires 0 <= i < |args| => At(s, args[i]))
  }

  lemma {:induction false} TextAddArg(s: string, c: Cmd<Span>, w: Span)
    requires Placed(s, c) && WordAt(s, w)
    ensures Placed(s, AddArg(c, w)) && Text(s, AddArg(c, w)) == AddArg(Text(s, c), At(s, w))
  {
    match c
    case Exec(args) => assert Texts(s, args + [w]) == Texts(s, args) + [At(s, w)];
    case Redir(c1, _, _) => TextAddArg(s, c1, w);
    case _ =>
  }

  /** gettoken's code for a token. */
  function Code(t: Tok): char { match t case Sym(c) => c case More => '+' case Word(_) => 'a' }

  /** Does the token begin with one of these symbols? */
  predicate BeginsWith(t: Tok, toks: string) {
    match t case Sym(c) => c in toks case More => '>' in toks case Word(_) => false
  }

  lemma LexSpace(s: string, p: nat)
    requires p < |s| && IsSpace(s[p])
    ensures Lex(s[p..]) == Lex(s[p + 1..])
  {
    assert s[p..][1..] == s[p + 1..];
  }

  /** What the token at p is, by its first characters, and where it ends. */
  lemma LexAt(s: string, p: nat)
    requires p < |s| && !IsSpace(s[p])
    ensures var ts := Lex(s[p..]);
      if s[p] == '>' && p + 1 < |s| && s[p + 1] == '>' then ts == Cons(More, Lex(s[p + 2..]))
      else if IsSymbol(s[p]) then ts == Cons(Sym(s[p]), Lex(s[p + 1..]))
      else ts.Cons? && ts.head.Word?
  {
    var t := s[p..];
    assert t[0] == s[p] && (p + 1 < |s| ==> t[1] == s[p + 1]);
    assert t[1..] == s[p + 1..];
    assert p + 1 < |s| ==> t[2..] == s[p + 2..];
  }

  lemma LexWordAt(s: string, w: Span)
    requires WordAt(s, w)
    ensures Lex(s[w.q..]) == Cons(Word(At(s, w)), Lex(s[w.eq..]))
  {
    var word, rest := s[w.q..w.eq], s[w.eq..];
    assert s[w.q..] == word + rest;
    LexWord(word, rest);
  }

  class Parser {
    const line: string
    var pos: nat

    constructor (s: string)
      ensures line == s && pos == 0
    {
      line, pos := s, 0;
    }

    ghost predicate Valid()
      reads this
    {
      pos <= |line|
    }

    /** The tokens still to come. */
    ghost function Rest(): Toks
      requires Valid()
      reads this
    {
      Lex(line[pos..])
    }

    method SkipSpace()
      requires Valid()
      modifies this
      ensures Valid() && Rest() == old(Rest()) && (pos < |line| ==> !IsSpace(line[pos]))
    {
      while pos < |line| && IsSpace(line[pos])
        invariant Valid() && Rest() == old(Rest())
      {
        LexSpace(line, pos);
        pos := pos + 1;
      }
    }

    /** peek: is the next token one that begins with one of these symbols? */
    method Peek(toks: string) returns (b: bool)
      requires Valid() && forall i | 0 <= i < |toks| :: IsSymbol(toks[i])
      modifies this
      ensures Valid() && Rest() == old(Rest())
      ensures b <==> Rest().Cons? && BeginsWith(Rest().head, toks)
      ensures pos == |line| <==> Rest().Nil?
    {
      SkipSpace();
      b := pos < |line| && line[pos] in toks;
      if pos < |line| { LexAt(line, pos); }
    }

    /** gettoken: the next token, and its place if it is a word. */
    method GetToken() returns (ret: char, w: Span)
      requires Valid()
      modifies this
      ensures Valid()
      ensures old(Rest()).Nil? ==> ret == '\0' && Rest().Nil?
      ensures old(Rest()).Cons? ==> ret == Code(old(Rest()).head) && Rest() == old(Rest()).tail
      ensures ret == '\0' <==> old(Rest()).Nil?
      ensures ret == 'a' <==> old(Rest()).Cons? && old(Rest()).head.Word?
      ensures ret == 'a' ==> WordAt(line, w) && old(Rest()).head == Word(At(line, w))
    {
      SkipSpace();
      w := Span(pos, pos);
      if pos == |line| {
        ret := '\0';
        return;
      }
      LexAt(line, pos);
      if line[pos] == '>' {
        ret := '>';
        pos := pos + 1;
        if pos < |line| && line[pos] == '>' {
          ret := '+';
          pos := pos + 1;
        }
      } else if IsSymbol(line[pos]) {
        ret := line[pos];
        pos := pos + 1;
      } else {
        ret := 'a';
        w := SkipWord();
      }
      SkipSpace();
    }

    method SkipWord() returns (w: Span)
      requires pos < |line| && IsWordChar(line[pos])
      modifies this
      ensures Valid() && WordAt(line, w) && old(Rest()) == Cons(Word(At(line, w)), Rest())
    {
      var q := pos;
      while pos < |line| && IsWordChar(line[pos])
        invariant q <= pos <= |line| && forall i | q <= i < pos :: IsWordChar(line[i])
      {
        pos := pos + 1;
      }
      w := Span(q, pos);
      LexWordAt(line, w);
    }

    /** The tree, or the panic, is the one the tokens stand for, and what is left is left. */
    ghost predicate Agrees(r: Parsed, spec: Outcome)
      reads this
    {
      match spec
      case Err(e) => r == Panic(e)
      case Ok(c, rest) => Valid() && Rest() == rest && r.Tree? && Placed(line, r.cmd) && Text(line, r.cmd) == c
    }

    /** One turn of parseredirs. */
    method ParseRedir(c: Cmd<Span>) returns (r: Parsed)
      requires Valid() && Placed(line, c) && Rest().Cons? && IsRedir(Rest().head)
      modifies this
      ensures Valid() && Len(Rest()) <= Len(old(Rest()))
      ensures r == Panic(MissingFile) || (r.Tree? && Placed(line, r.cmd) && Len(Rest()) < Len(old(Rest())))
      ensures if r.Tree? then Redirs(Text(line, r.cmd), Rest()) == Redirs(Text(line, c), old(Rest()))
              else Redirs(Text(line, c), old(Rest())) == Err(MissingFile)
    {
      ghost var ts := Rest();
      var tok, _ := GetToken();
      var word, w := GetToken();
      if word != 'a' {
        return Panic(MissingFile);
      }
      var kind := if tok == '<' then Input else if tok == '>' then Output else Append;
      assert kind == KindOf(ts.head) && Rest() == ts.tail.tail;
      return Tree(Redir(c, w, kind));
    }

    /** parseredirs: the redirections that come next, around the command. */
    method ParseRedirs(c: Cmd<Span>) returns (r: Parsed)
      requires Valid() && Placed(line, c)
      modifies this
      ensures Agrees(r, Redirs(Text(line, c), old(Rest())))
    {
      r := Tree(c);
      var more := Peek("<>");
      while more
        invariant Valid() && r.Tree? && Placed(line, r.cmd) && (more <==> Rest().Cons? && IsRedir(Rest().head))
        invariant Redirs(Text(line, r.cmd), Rest()) == Redirs(Text(line, c), old(Rest()))
        decreases Len(Rest())
      {
        r := ParseRedir(r.cmd);
        if r.Panic? { return; }
        more := Peek("<>");
      }
    }

    /** One turn of parseexec's loop; `ended` if the line is at its end. */
    method ParseArg(c: Cmd<Span>, argc: nat) returns (r: Parsed, ended: bool)
      requires Valid() && Placed(line, c) && (Rest().Cons? ==> !EndsArgs(Rest().head))
      modifies this
      ensures r.Tree? ==>
                Valid() && Placed(line, r.cmd) && (if ended then Rest().Nil? else Len(Rest()) < Len(old(Rest())))
      ensures r.Tree? ==> argc + 1 < MAXARGS || ended
      ensures r.Panic? ==> Args(Text(line, c), argc, old(Rest())) == Err(r.e)
      ensures r.Tree? ==>
                Args(Text(line, r.cmd), if ended then argc else argc + 1, Rest())
                == Args(Text(line, c), argc, old(Rest()))
    {
      ghost var ts := Rest();
      var tok, w := GetToken();
      if tok == '\0' {
        return Tree(c), true;
      }
      if tok != 'a' {
        return Panic(Syntax), false;
      }
      TextAddArg(line, c, w);
      if argc + 1 >= MAXARGS {
        return Panic(TooManyArgs), false;
      }
      r := ParseRedirs(AddArg(c, w));
      ended := false;
    }

    /** parseexec: a block, or a command's arguments with redirections among them. */
    method ParseExec() returns (r: Parsed)
      requires Valid()
      modifies this
      ensures Agrees(r, ExecPart(old(Rest())))
      decreases Len(Rest()), 1
    {
      var block := Peek("(");
      if block {
        r := ParseBlock();
        return;
      }
      assert Texts(line, []) == [];
      r := ParseRedirs(Exec([]));
      if r.Tree? {
        r := ParseArgs(r.cmd);
      }
    }

    method PeekEnd() returns (done: bool)
      requires Valid()
      modifies this
      ensures Valid() && Rest() == old(Rest()) && (done <==> Rest().Cons? && EndsArgs(Rest().head))
    {
      done := Peek("|)&;");
    }

    method ParseArgs(c: Cmd<Span>) returns (r: Parsed)
      requires Valid() && Placed(line, c)
      modifies this
      ensures Agrees(r, Args(Text(line, c), 0, old(Rest())))
    {
      r := Tree(c);
      var argc := 0;
      var done := PeekEnd();
      while !done
        invariant Valid() && r.Tree? && Placed(line, r.cmd) && argc < MAXARGS
        invariant done <==> Rest().Cons? && EndsArgs(Rest().head)
        invariant Args(Text(line, r.cmd), argc, Rest()) == Args(Text(line, c), 0, old(Rest()))
        decreases Len(Rest())
      {
        var ended;
        r, ended := ParseArg(r.cmd, argc);
        if r.Panic? || ended { return; }
        argc := argc + 1;
        done := PeekEnd();
      }
    }

    /** parseblock: a line in parentheses, and the redirections after it. */
    method ParseBlock() returns (r: Parsed)
      requires Valid()
      modifies this
      ensures Agrees(r, Block(old(Rest())))
      decreases Len(Rest()), 0
    {
      var open := Peek("(");
      if !open { return Panic(NoBlock); }
      var _, _ := GetToken();
      r := ParseLine();
      if r.Panic? { return; }
      var close := Peek(")");
      if !close { return Panic(MissingParen); }
      var _, _ := GetToken();
      r := ParseRedirs(r.cmd);
    }

    /** parsepipe. */
    method ParsePipe() returns (r: Parsed)
      requires Valid()
      modifies this
      ensures Agrees(r, PipePart(old(Rest())))
      decreases Len(Rest()), 2
    {
      r := ParseExec();
      if r.Panic? { return; }
      var more := Peek("|");
      if more {
        var _, _ := GetToken();
        var right := ParsePipe();
        if right.Panic? { return right; }
        r := Tree(Pipe(r.cmd, right.cmd));
      }
    }

    /** parseline. */
    method ParseLine() returns (r: Parsed)
      requires Valid()
      modifies this
      ensures Agrees(r, Line(old(Rest())))
      decreases Len(Rest()), 3
    {
      r := ParsePipe();
      if r.Panic? { return; }
      r := ParseBacks(r.cmd);
      var more := Peek(";");
      if more {
        var _, _ := GetToken();
        var right := ParseLine();
        if right.Panic? { return right; }
        r := Tree(List(r.cmd, right.cmd));
      }
    }

    method ParseBacks(c: Cmd<Span>) returns (r: Parsed)
      requires Valid() && Placed(line, c)
      modifies this
      ensures Agrees(r, Backs(Text(line, c), old(Rest())))
    {
      r := Tree(c);
      var more := Peek("&");
      while more
        invariant Valid() && r.Tree? && Placed(line, r.cmd) && (more <==> Rest().Cons? && Rest().head == Sym('&'))
        invariant Backs(Text(line, r.cmd), Rest()) == Backs(Text(line, c), old(Rest()))
        decreases Len(Rest())
      {
        var _, _ := GetToken();
        r := Tree(Back(r.cmd));
        more := Peek("&");
      }
    }
  }

  // ---------------------------------------------------------------------------------------
  // nulterminate.

  /** The C string at q. */
  function CString(b: seq<char>, q: nat): string
    decreases |b| - q
  {
    if q >= |b| || b[q] == '\0' then [] else [b[q]] + CString(b, q + 1)
  }

  /** The tree as runcmd sees it: its words are the C strings at their places. */
  function Strings(b: seq<char>, c: Cmd<Span>): Cmd<string> {
    match c
    case Exec(args) => Exec(seq(|args|, i requires 0 <= i < |args| => CString(b, args[i].q)))
    case Redir(c1, file, kind) => Redir(Strings(b, c1), CString(b, file.q), kind)
    case Pipe(l, r) => Pipe(Strings(b, l), Strings(b, r))
    case List(l, r) => List(Strings(b, l), Strings(b, r))
    case Back(c1) => Back(Strings(b, c1))
  }

  ghost function ArgEnds(args: seq<Span>): set<nat> { set i | 0 <= i < |args| :: args[i].eq }

  /** Where the words of the tree end. */
  ghost function Ends(c: Cmd<Span>): set<nat> {
    match c
    case Exec(args) => ArgEnds(args)
    case Redir(c1, file, _) => Ends(c1) + {file.eq}
    case Pipe(l, r) => Ends(l) + Ends(r)
    case List(l, r) => Ends(l) + Ends(r)
    case Back(c1) => Ends(c1)
  }

  /** The line in the buffer, with a NUL at each of `ends` and one after it. */
  ghost predicate Ended(s: string, b: seq<char>, ends: set<nat>) {
    |b| == |s| + 1 && b[|s|] == '\0' && forall i | 0 <= i < |s| :: b[i] == if i in ends then '\0' else s[i]
  }

  /** No word goes on where another ends. */
  lemma {:induction false} EndsOutside(s: string, c: Cmd<Span>, i: nat)
    requires Placed(s, c) && i in Ends(c)
    ensures i <= |s| && (i < |s| ==> !IsWordChar(s[i]))
  {
    match c
    case Exec(args) =>
    case Redir(c1, file, _) => if i != file.eq { EndsOutside(s, c1, i); }
    case Pipe(l, r) => if i in Ends(l) { EndsOutside(s, l, i); } else { EndsOutside(s, r, i); }
    case List(l, r) => if i in Ends(l) { EndsOutside(s, l, i); } else { EndsOutside(s, r, i); }
    case Back(c1) => EndsOutside(s, c1, i);
  }

  lemma {:induction false} CStringIs(b: seq<char>, q: nat, eq: nat)
    requires q <= eq < |b| && b[eq] == '\0' && forall i | q <= i < eq :: b[i] != '\0'
    ensures CString(b, q) == b[q..eq]
    decreases eq - q
  {
    if q < eq { CStringIs(b, q + 1, eq); }
  }

  /** Word characters are as in the line, and each of the ends is a NUL. */
  ghost predicate WordsKept(s: string, b: seq<char>) {
    |b| == |s| + 1 && b[|s|] == '\0' && forall i | 0 <= i < |s| && IsWordChar(s[i]) :: b[i] == s[i] != '\0'
  }

  lemma StringAt(s: string, b: seq<char>, w: Span)
    requires WordsKept(s, b) && WordAt(s, w) && b[w.eq] == '\0'
    ensures CString(b, w.q) == At(s, w)
  {
    CStringIs(b, w.q, w.eq);
    assert b[w.q..w.eq] == s[w.q..w.eq];
  }

  lemma {:induction false} StringsAre(s: string, b: seq<char>, c: Cmd<Span>, ends: set<nat>)
    requires WordsKept(s, b) && Placed(s, c) && Ends(c) <= ends && forall e | e in ends :: e < |b| && b[e] == '\0'
    ensures Strings(b, c) == Text(s, c)
  {
    match c
    case Exec(args) =>
      forall i | 0 <= i < |args| ensures CString(b, args[i].q) == At(s, args[i]) {
        assert args[i].eq in ArgEnds(args);
        StringAt(s, b, args[i]);
      }
    case Redir(c1, file, _) => StringsAre(s, b, c1, ends); StringAt(s, b, file);
    case Pipe(l, r) => StringsAre(s, b, l, ends); StringsAre(s, b, r, ends);
    case List(l, r) => StringsAre(s, b, l, ends); StringsAre(s, b, r, ends);
    case Back(c1) => StringsAre(s, b, c1, ends);
  }

  /** Once the words are ended, the C string of each is the word: no NUL falls inside another. */
  lemma WordsEnded(s: string, b: seq<char>, c: Cmd<Span>)
    requires '\0' !in s && Placed(s, c) && Ended(s, b, Ends(c))
    ensures Strings(b, c) == Text(s, c)
  {
    forall i | 0 <= i < |s| && IsWordChar(s[i]) ensures b[i] == s[i] != '\0' {
      if i in Ends(c) { EndsOutside(s, c, i); }
    }
    forall e | e in Ends(c) ensures e < |b| && b[e] == '\0' { EndsOutside(s, c, e); }
    StringsAre(s, b, c, Ends(c));
  }

  /** nulterminate: a NUL goes where each word of the tree ends. */
  method NulTerminate(buf: array<char>, c: Cmd<Span>, ghost s: string, ghost ends: set<nat>)
    requires Ended(s, buf[..], ends) && Placed(s, c)
    modifies buf
    ensures Ended(s, buf[..], ends + Ends(c))
    decreases c
  {
    match c
    case Exec(args) =>
      for i := 0 to |args|
        invariant Ended(s, buf[..], ends + ArgEnds(args[..i]))
      {
        assert ArgEnds(args[..i + 1]) == ArgEnds(args[..i]) + {args[i].eq};
        PutNul(buf, args[i].eq, s, ends + ArgEnds(args[..i]));
        assert ends + ArgEnds(args[..i]) + {args[i].eq} == ends + ArgEnds(args[..i + 1]);
      }
      assert args[..|args|] == args;
    case Redir(c1, file, _) =>
      NulTerminate(buf, c1, s, ends);
      PutNul(buf, file.eq, s, ends + Ends(c1));
      assert ends + Ends(c1) + {file.eq} == ends + Ends(c);
    case Pipe(l, r) =>
      NulTerminate(buf, l, s, ends);
      NulTerminate(buf, r, s, ends + Ends(l));
      assert ends + Ends(l) + Ends(r) == ends + Ends(c);
    case List(l, r) =>
      NulTerminate(buf, l, s, ends);
      NulTerminate(buf, r, s, ends + Ends(l));
      assert ends + Ends(l) + Ends(r) == ends + Ends(c);
    case Back(c1) =>
      NulTerminate(buf, c1, s, ends);
  }

  method PutNul(buf: array<char>, e: nat, ghost s: string, ghost ends: set<nat>)
    requires Ended(s, buf[..], ends) && e <= |s|
    modifies buf
    ensures Ended(s, buf[..], ends + {e})
  {
    buf[e] := '\0';
  }

  /** parsecmd: the line in the buffer becomes the tree it stands for, or a panic; the tree's words
      are C strings in the buffer. */
  method ParseCmd(buf: array<char>, s: string) returns (r: Parsed)
    requires '\0' !in s && buf[..] == s + ['\0']
    modifies buf
    ensures match Parse(s) case Err(e) => r == Panic(e) case Ok(c, _) => r.Tree? && Strings(buf[..], r.cmd) == c
  {
    var p := new Parser(s);
    assert s[0..] == s;
    r := p.ParseLine();
    if r.Panic? { return; }
    var _ := p.Peek("");
    if p.pos != |s| {
      return Panic(Syntax);
    }
    assert Ended(s, buf[..], {});
    NulTerminate(buf, r.cmd, s, {});
    assert {} + Ends(r.cmd) == Ends(r.cmd);
    WordsEnded(s, buf[..], r.cmd);
  }
}
