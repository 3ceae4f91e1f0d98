/** How tightly the shell's symbols bind (user/sh.c): trees written with parentheses only where they are
    needed are read back. */
module ShellPlain {
  import opened ShellSyntax

  /** What a tree can be without parentheses: 3 a command, 2 a pipeline, 1 something before a semicolon, and
      0 a line only. */
  function Level(c: Cmd<string>): nat {
    match c
    case Exec(_) => 3
    case Redir(_, _, _) => 3
    case Pipe(_, _) => 2
    case Back(_) => 1
    case List(_, _) => 0
  }

  /** The tree where a tree of that level must be, then `rest`: a pipe binds tighter than &, and that
      tighter than a semicolon; pipes and semicolons group to the right. */
  function Plain(c: Cmd<string>, level: nat, rest: string): string
    requires level <= 3
    decreases c, level
  {
    if Level(c) < level then "(" + Plain(c, 0, ")" + rest) else
      match c
      case Exec(args) => PrintArgs(args, rest)
      case Redir(c1, file, kind) => Plain(c1, 3, Op(kind) + (file + rest))
      case Pipe(l, r) => Plain(l, 3, "|" + Plain(r, 2, rest))
      case Back(c1) => Plain(c1, 1, "&" + rest)
      case List(l, r) => Plain(l, 1, ";" + Plain(r, 0, rest))
  }

  function PlainToks(c: Cmd<string>, level: nat, rest: Toks): Toks
    requires level <= 3
    decreases c, level
  {
    if Level(c) < level then Cons(Sym('('), PlainToks(c, 0, Cons(Sym(')'), rest))) else
      match c
      case Exec(args) => ArgToks(args, rest)
      case Redir(c1, file, kind) => PlainToks(c1, 3, Cons(OpTok(kind), Cons(Word(file), rest)))
      case Pipe(l, r) => PlainToks(l, 3, Cons(Sym('|'), PlainToks(r, 2, rest)))
      case Back(c1) => PlainToks(c1, 1, Cons(Sym('&'), rest))
      case List(l, r) => PlainToks(l, 1, Cons(Sym(';'), PlainToks(r, 0, rest)))
  }

  /** The line has the tree's tokens. */
  lemma {:induction false} LexPlain(c: Cmd<string>, level: nat, s: string)
    requires Legal(c) && level <= 3 && (s == [] || !IsWordChar(s[0]))
    ensures Lex(Plain(c, level, s)) == PlainToks(c, level, Lex(s))
    decreases c, level
  {
    if Level(c) < level {
      LexSym(')', s);
      LexPlain(c, 0, ")" + s);
      LexSym('(', Plain(c, 0, ")" + s));
    } else {
      match c
      case Exec(args) => LexArgs(args, s);
      case Redir(c1, file, kind) =>
        LexWord(file, s);
        LexOp(kind, file + s);
        LexPlain(c1, 3, Op(kind) + (file + s));
      case Pipe(l, r) =>
        LexPlain(r, 2, s);
        LexSym('|', Plain(r, 2, s));
        LexPlain(l, 3, "|" + Plain(r, 2, s));
      case Back(c1) =>
        LexSym('&', s);
        LexPlain(c1, 1, "&" + s);
      case List(l, r) =>
        LexPlain(r, 0, s);
        LexSym(';', Plain(r, 0, s));
        LexPlain(l, 1, ";" + Plain(r, 0, s));
    }
  }

  // ---------------------------------------------------------------------------------------
  // Commands: what is in front of the redirections, and these.

  function Base(c: Cmd<string>): Cmd<string> { if c.Redir? then Base(c.cmd) else c }

  function Ops(c: Cmd<string>, rest: Toks): Toks {
    if c.Redir? then Ops(c.cmd, Cons(OpTok(c.kind), Cons(Word(c.file), rest))) else rest
  }

  lemma {:induction false} CommandToks(c: Cmd<string>, ts: Toks)
    ensures PlainToks(c, 3, ts) == PlainToks(Base(c), 3, Ops(c, ts)) && !Base(c).Redir?
  {
    if c.Redir? { CommandToks(c.cmd, Cons(OpTok(c.kind), Cons(Word(c.file), ts))); }
  }

  lemma {:induction false} RedirsOf(c: Cmd<string>, ts: Toks)
    ensures Redirs(Base(c), Ops(c, ts)) == Redirs(c, ts)
  {
    if c.Redir? {
      var more := Cons(OpTok(c.kind), Cons(Word(c.file), ts));
      RedirsOf(c.cmd, more);
      OneRedir(c.cmd, c.file, c.kind, ts);
    }
  }

  lemma {:induction false} BaseLegal(c: Cmd<string>)
    requires Legal(c)
    ensures Legal(Base(c))
  {
    if c.Redir? { BaseLegal(c.cmd); }
  }

  lemma {:induction false} BaseSmaller(c: Cmd<string>)
    ensures Base(c) == c || Base(c) < c
  {
    if c.Redir? { BaseSmaller(c.cmd); }
  }

  /** What may follow a command, a pipeline, and something before a semicolon. */
  predicate EndsExec(ts: Toks) { ts.Nil? || EndsArgs(ts.head) }

  predicate EndsPipe(ts: Toks) { EndsExec(ts) && (ts.Cons? ==> ts.head != Sym('|')) }

  /** The arguments, and then the redirections of c. */
  lemma {:induction false} ArgsThenOps(args: seq<string>, n: nat, c: Cmd<string>, ts: Toks)
    requires n < |args| < MAXARGS && EndsExec(ts) && Base(c) == Exec(args)
    ensures Args(Exec(args[..n]), n, ArgToks(args[n..], Ops(c, ts))) == Ok(c, ts)
    decreases |args| - n
  {
    var more := ArgToks(args[n + 1..], Ops(c, ts));
    assert args[n..][0] == args[n] && args[n..][1..] == args[n + 1..] && args[..n] + [args[n]] == args[..n + 1];
    if n + 1 == |args| {
      assert args[..n + 1] == args && args[n + 1..] == [];
      RedirsOf(c, ts);
      assert Redirs(Exec(args), more) == Ok(c, ts);
    } else {
      assert Redirs(Exec(args[..n + 1]), more) == Ok(Exec(args[..n + 1]), more);
      ArgsThenOps(args, n + 1, c, ts);
    }
  }

  lemma SimpleOf(args: seq<string>, c: Cmd<string>, ts: Toks)
    requires |args| < MAXARGS && EndsExec(ts) && Base(c) == Exec(args)
    ensures ExecPart(ArgToks(args, Ops(c, ts))) == Ok(c, ts)
  {
    var all := ArgToks(args, Ops(c, ts));
    if args == [] {
      RedirsOf(c, ts);
      assert Redirs(Exec([]), all) == Ok(c, ts);
      NoParen(c, ts);
    } else {
      assert Redirs(Exec([]), all) == Ok(Exec([]), all);
      assert args[..0] == [] && args[0..] == args;
      ArgsThenOps(args, 0, c, ts);
    }
  }

  lemma {:induction false} NoParen(c: Cmd<string>, ts: Toks)
    requires EndsExec(ts) || (ts.Cons? && IsRedir(ts.head))
    ensures Ops(c, ts).Cons? ==> Ops(c, ts).head != Sym('(')
  {
    if c.Redir? { NoParen(c.cmd, Cons(OpTok(c.kind), Cons(Word(c.file), ts))); }
  }

  // ---------------------------------------------------------------------------------------
  // Background: what is in front of the ampersands, and these.

  function Stem(c: Cmd<string>): Cmd<string> { if c.Back? then Stem(c.cmd) else c }

  function Amps(c: Cmd<string>, rest: Toks): Toks { if c.Back? then Amps(c.cmd, Cons(Sym('&'), rest)) else rest }

  lemma {:induction false} BacksOf(c: Cmd<string>, ts: Toks)
    ensures Backs(Stem(c), Amps(c, ts)) == Backs(c, ts)
  {
    if c.Back? {
      BacksOf(c.cmd, Cons(Sym('&'), ts));
      assert Backs(c.cmd, Cons(Sym('&'), ts)) == Backs(Back(c.cmd), ts);
    }
  }

  // ---------------------------------------------------------------------------------------
  // Each level is read back.

  lemma {:induction false} ReadExec(c: Cmd<string>, ts: Toks)
    requires Legal(c) && EndsExec(ts)
    ensures ExecPart(PlainToks(c, 3, ts)) == Ok(c, ts)
    decreases c, if Level(c) == 3 then 1 else 5
  {
    var b := Base(c);
    CommandToks(c, ts);
    BaseLegal(c);
    BaseSmaller(c);
    if b.Exec? {
      SimpleOf(b.args, c, ts);
    } else {
      ReadLine(b, Cons(Sym(')'), Ops(c, ts)));
      RedirsOf(c, ts);
    }
  }

  lemma {:induction false} ReadPipe(c: Cmd<string>, ts: Toks)
    requires Legal(c) && EndsPipe(ts)
    ensures PipePart(PlainToks(c, 2, ts)) == Ok(c, ts)
    decreases c, if Level(c) >= 2 then 2 else 6
  {
    if c.Pipe? {
      ReadPipe(c.right, ts);
      ReadExec(c.left, Cons(Sym('|'), PlainToks(c.right, 2, ts)));
    } else {
      assert PlainToks(c, 2, ts) == PlainToks(c, 3, ts);
      ReadExec(c, ts);
    }
  }

  lemma {:induction false} ReadBack(c: Cmd<string>, ts: Toks)
    requires Legal(c) && EndsPipe(ts)
    ensures PipePart(PlainToks(c, 1, ts)) == Ok(Stem(c), Amps(c, ts))
    decreases c, if Level(c) >= 1 then 3 else 7
  {
    if c.Back? {
      ReadBack(c.cmd, Cons(Sym('&'), ts));
    } else {
      assert PlainToks(c, 1, ts) == PlainToks(c, 2, ts);
      ReadPipe(c, ts);
    }
  }

  lemma {:induction false} ReadLine(c: Cmd<string>, ts: Toks)
    requires Legal(c) && EndsLine(ts)
    ensures Line(PlainToks(c, 0, ts)) == Ok(c, ts)
    decreases c, 4
  {
    if c.List? {
      var more := Cons(Sym(';'), PlainToks(c.right, 0, ts));
      ReadLine(c.right, ts);
      ReadBack(c.left, more);
      BacksOf(c.left, more);
    } else {
      assert PlainToks(c, 0, ts) == PlainToks(c, 1, ts);
      ReadBack(c, ts);
      BacksOf(c, ts);
    }
  }

  /** Every tree of legal words, written with no more parentheses than it needs, is read back. */
  lemma PlainRoundTrip(c: Cmd<string>)
    requires Legal(c)
    ensures Parse(Plain(c, 0, "")) == Ok(c, Nil)
  {
    LexPlain(c, 0, "");
    ReadLine(c, Nil);
  }

  /** So every accepted line has a form without needless parentheses, with the same tree. */
  lemma PlainForm(s: string)
    requires Parse(s).Ok?
    ensures Parse(Plain(Parse(s).cmd, 0, "")) == Parse(s)
  {
    PrintedForm(s);
    PlainRoundTrip(Parse(s).cmd);
  }

  // ---------------------------------------------------------------------------------------
  // Redirections may stand anywhere among the arguments.

  datatype Item = Arg(w: string) | Io(kind: Kind, file: string)

  function ItemToks(items: seq<Item>, rest: Toks): Toks {
    if items == [] then rest else
      var more := ItemToks(items[1..], rest);
      match items[0] case Arg(w) => Cons(Word(w), more) case Io(kind, file) => Cons(OpTok(kind), Cons(Word(file), more))
  }

  function Words(items: seq<Item>): seq<string> {
    if items == [] then [] else (if items[0].Arg? then [items[0].w] else []) + Words(items[1..])
  }

  /** The command with the redirections among the items, the first innermost. */
  function Around(c: Cmd<string>, items: seq<Item>): Cmd<string>
    decreases |items|
  {
    if items == [] then c
    else Around(if items[0].Io? then Redir(c, items[0].file, items[0].kind) else c, items[1..])
  }

  /** What is inside the redirections, replaced. */
  function Rebase(c: Cmd<string>, b: Cmd<string>): Cmd<string> {
    if c.Redir? then Redir(Rebase(c.cmd, b), c.file, c.kind) else b
  }

  lemma {:induction false} AddsInside(c: Cmd<string>, args: seq<string>, w: string, b: Cmd<string>)
    requires Base(c) == Exec(args)
    ensures Base(AddArg(c, w)) == Exec(args + [w]) && Rebase(AddArg(c, w), b) == Rebase(c, b)
  {
    if c.Redir? { AddsInside(c.cmd, args, w, b); }
  }

  lemma OneRedir(c: Cmd<string>, file: string, kind: Kind, ts: Toks)
    ensures Redirs(c, Cons(OpTok(kind), Cons(Word(file), ts))) == Redirs(Redir(c, file, kind), ts)
  {
    assert KindOf(OpTok(kind)) == kind;
  }

  lemma {:induction false} ReadItems(items: seq<Item>, c: Cmd<string>, args: seq<string>, ts: Toks)
    requires Base(c) == Exec(args) && |args| + |Words(items)| < MAXARGS && EndsExec(ts)
    ensures var r := Redirs(c, ItemToks(items, ts));
            r.Ok? && Args(r.cmd, |args|, r.rest) == Ok(Around(Rebase(c, Exec(args + Words(items))), items), ts)
    decreases |items|
  {
    if items == [] {
      assert args + [] == args;
      SameBase(c);
    } else if items[0].Io? {
      var file, kind := items[0].file, items[0].kind;
      ReadItems(items[1..], Redir(c, file, kind), args, ts);
      assert [] + Words(items[1..]) == Words(items[1..]) == Words(items);
      OneRedir(c, file, kind, ItemToks(items[1..], ts));
    } else {
      var w := items[0].w;
      AddsInside(c, args, w, Exec(args + Words(items)));
      ReadItems(items[1..], AddArg(c, w), args + [w], ts);
      assert args + [w] + Words(items[1..]) == args + Words(items);
      assert Redirs(c, ItemToks(items, ts)) == Ok(c, ItemToks(items, ts));
    }
  }

  lemma {:induction false} SameBase(c: Cmd<string>)
    ensures Rebase(c, Base(c)) == c
  {
    if c.Redir? { SameBase(c.cmd); }
  }

  /** A simple command has its words as arguments, in order, and its redirections around them, in order. */
  lemma SimpleCommand(items: seq<Item>, ts: Toks)
    requires |Words(items)| < MAXARGS && EndsExec(ts)
    ensures ExecPart(ItemToks(items, ts)) == Ok(Around(Exec(Words(items)), items), ts)
  {
    ReadItems(items, Exec([]), [], ts);
    assert [] + Words(items) == Words(items);
  }
}
