/**
 The reservation of kernel/log.c when operations share blocks: the disk's bitmap blocks, which any
 allocation logs, are in the header once however many operations log them.

 An operation here is first to log a few blocks of its own and a few bitmap blocks, in any order,
 and its last log_write is of one more block of its own: as writei ends with the inode's.
 */
module SharedReservation {
  import opened Common
  import R = LogReservation

  type Tid = R.Tid

  /** At most this many blocks of its own, the last included, and this many bitmap blocks. */
  datatype Shape = Shape(own: nat, bits: nat)

  /** What an operation was first to log so far, and whether its last log_write is behind it. */
  datatype Spent = Spent(own: nat, bits: nat, closed: bool)

  /** What log.lock guards; the header's blocks are the bitmap blocks and the others. */
  datatype Core = Core(own: set<nat>, bits: set<nat>, active: map<Tid, Spent>, committing: bool)

  const BOOT := Core({}, {}, map[], false)
  const NEW := Spent(0, 0, false)

  function Len(c: Core): nat { |c.own| + |c.bits| }

  predicate CanBegin(p: R.Params, c: Core) {
    !c.committing && Len(c) + R.Slots(|c.active| + 1, p.maxOp) <= p.logSize
  }

  predicate TooBig(p: R.Params, c: Core) { Len(c) >= p.logSize || Len(c) >= p.onDisk - 1 }

  datatype Event =
    | BeginOp(t: Tid)
    | LogOwn(t: Tid, b: nat)
    | LogBits(t: Tid, row: nat)
    | LogLast(t: Tid, b: nat)
    | EndOp(t: Tid)
    | CommitDone

  predicate Open(c: Core, t: Tid) { t in c.active && !c.active[t].closed }

  predicate Enabled(p: R.Params, sh: Shape, rows: nat, c: Core, e: Event) {
    match e
    case BeginOp(t) => t !in c.active && CanBegin(p, c)
    case LogOwn(t, b) => Open(c, t) && !TooBig(p, c) && (b in c.own || c.active[t].own + 1 < sh.own)
    case LogBits(t, row) => Open(c, t) && !TooBig(p, c) && row < rows && (row in c.bits || c.active[t].bits < sh.bits)
    case LogLast(t, b) => Open(c, t) && !TooBig(p, c)
    case EndOp(t) => t in c.active
    case CommitDone => c.committing
  }

  function Next(c: Core, e: Event): Core
    requires e.LogOwn? || e.LogBits? || e.LogLast? ==> e.t in c.active
  {
    match e
    case BeginOp(t) => c.(active := c.active[t := NEW])
    case LogOwn(t, b) =>
      var u := c.active[t];
      if b in c.own then c else c.(own := c.own + {b}, active := c.active[t := u.(own := u.own + 1)])
    case LogBits(t, row) =>
      var u := c.active[t];
      if row in c.bits then c else c.(bits := c.bits + {row}, active := c.active[t := u.(bits := u.bits + 1)])
    case LogLast(t, b) =>
      var u := c.active[t];
      c.(own := c.own + {b},
         active := c.active[t := Spent(if b in c.own then u.own else u.own + 1, u.bits, true)])
    case EndOp(t) =>
      var active := c.active - {t};
      c.(active := active, committing := |active| == 0)
    case CommitDone => c.(own := {}, bits := {}, committing := false)
  }

  datatype Trace = Start | Then(before: Trace, e: Event)

  ghost predicate Reached(p: R.Params, sh: Shape, rows: nat, tr: Trace, c: Core)
    decreases tr
  {
    match tr
    case Start => c == BOOT
    case Then(before, e) =>
      exists c1 :: Reached(p, sh, rows, before, c1) && Enabled(p, sh, rows, c1, e) && c == Next(c1, e)
  }

  ghost predicate Reachable(p: R.Params, sh: Shape, rows: nat, c: Core) {
    exists tr :: Reached(p, sh, rows, tr, c)
  }

  /** An operation with a log_write still to come finds the header too long. */
  ghost predicate Panics(p: R.Params, c: Core) { TooBig(p, c) && exists t :: Open(c, t) }

  // ---------------------------------------------------------------------------------------
  // Safety.  What is spent is counted twice: the own blocks alone, and with the bitmap blocks.

  /** What operations may spend: m blocks, with or without the bitmap blocks. */
  datatype Account = Account(m: nat, all: bool)

  ghost function Charge(k: Account, u: Spent): nat {
    if u.closed then k.m else u.own + if k.all then u.bits else 0
  }

  ghost function Charges(k: Account, active: map<Tid, Spent>): map<Tid, nat> {
    map t | t in active :: Charge(k, active[t])
  }

  lemma ChargesSet(k: Account, active: map<Tid, Spent>, t: Tid, u: Spent)
    ensures Charges(k, active[t := u]) == Charges(k, active)[t := Charge(k, u)]
  {
  }

  lemma ChargesDrop(k: Account, active: map<Tid, Spent>, t: Tid)
    ensures Charges(k, active - {t}) == Charges(k, active) - {t}
  {
  }

  /** n blocks are logged by operations that may each spend m, of which the ones in progress have spent this. */
  ghost predicate Fits(p: R.Params, m: nat, n: nat, spent: map<Tid, nat>) {
    && (forall t | t in spent :: spent[t] <= m)
    && (spent != map[] ==> n + R.Unspent(m, spent) <= R.Worst(p, m))
  }

  lemma {:induction false} MoreSlots(m: nat, maxOp: nat, k: nat)
    requires m <= maxOp && k >= 2
    ensures R.Slots(k, maxOp) - R.Slots(k, m) >= 2 * (maxOp - m)
    decreases k
  {
    if k == 2 {
      assert R.Slots(2, m) == m + R.Slots(1, m) == 2 * m;
      assert R.Slots(2, maxOp) == maxOp + R.Slots(1, maxOp) == 2 * maxOp;
    } else {
      MoreSlots(m, maxOp, k - 1);
    }
  }

  lemma FitsBegin(p: R.Params, m: nat, n: nat, len: nat, spent: map<Tid, nat>, t: Tid)
    requires Fits(p, m, n, spent) && t !in spent && m <= p.maxOp && 2 * p.maxOp <= p.logSize && n <= len
    requires len + R.Slots(|spent| + 1, p.maxOp) <= p.logSize && (spent == map[] ==> n == 0)
    ensures Fits(p, m, n, spent[t := 0])
  {
    R.UnspentUpdate(m, spent, t, 0);
    assert spent - {t} == spent;
    R.UnspentAtMost(m, spent);
    if |spent| > 0 {
      MoreSlots(m, p.maxOp, |spent| + 1);
    } else {
      assert spent == map[];
    }
  }

  /** An operation spends: it is charged for what it adds, and for more if it closes. */
  lemma FitsSpend(p: R.Params, m: nat, n: nat, n': nat, spent: map<Tid, nat>, t: Tid, v: nat)
    requires Fits(p, m, n, spent) && t in spent && spent[t] <= v <= m && n' - n <= v - spent[t]
    ensures Fits(p, m, n', spent[t := v])
  {
    R.UnspentRemove(m, spent, t);
    R.UnspentUpdate(m, spent, t, v);
  }

  lemma FitsEnd(p: R.Params, m: nat, n: nat, spent: map<Tid, nat>, t: Tid)
    requires Fits(p, m, n, spent) && t in spent
    ensures Fits(p, m, n, spent - {t})
  {
    R.UnspentRemove(m, spent, t);
  }

  lemma FitsFound(p: R.Params, m: nat, n: nat, spent: map<Tid, nat>, t: Tid)
    requires Fits(p, m, n, spent) && t in spent && spent[t] < m
    ensures n < R.Worst(p, m)
  {
    R.UnspentRemove(m, spent, t);
    R.UnspentAtLeast(m, m, spent - {t});
  }

  ghost function Upto(n: nat): (r: set<nat>)
    ensures |r| == n && forall b: nat :: b in r <==> b < n
  {
    if n == 0 then {} else Upto(n - 1) + {n - 1}
  }

  ghost predicate Paid(p: R.Params, k: Account, n: nat, active: map<Tid, Spent>) {
    Fits(p, k.m, n, Charges(k, active))
  }

  ghost predicate Shaped(sh: Shape, rows: nat, c: Core) {
    && (forall t | t in c.active && !c.active[t].closed :: c.active[t].own < sh.own && c.active[t].bits <= sh.bits)
    && c.bits <= Upto(rows) && (c.active == map[] && !c.committing ==> c.own == {} && c.bits == {})
    && (c.committing ==> c.active == map[])
  }

  ghost function OwnAccount(sh: Shape): Account { Account(sh.own, false) }

  ghost function WholeAccount(sh: Shape): Account { Account(sh.own + sh.bits, true) }

  ghost predicate Inv(p: R.Params, sh: Shape, rows: nat, c: Core) {
    Shaped(sh, rows, c) && Paid(p, OwnAccount(sh), |c.own|, c.active) && Paid(p, WholeAccount(sh), Len(c), c.active)
  }

  ghost predicate Sized(p: R.Params, sh: Shape) {
    1 <= sh.own && sh.own + sh.bits <= p.maxOp && 2 * p.maxOp <= p.logSize
  }

  lemma PaidBegin(p: R.Params, k: Account, n: nat, len: nat, active: map<Tid, Spent>, t: Tid)
    requires Paid(p, k, n, active) && t !in active && k.m <= p.maxOp && 2 * p.maxOp <= p.logSize && n <= len
    requires len + R.Slots(|active| + 1, p.maxOp) <= p.logSize && (active == map[] ==> n == 0)
    ensures Paid(p, k, n, active[t := NEW])
  {
    var spent := Charges(k, active);
    assert spent.Keys == active.Keys;
    assert |spent| == |active|;
    FitsBegin(p, k.m, n, len, spent, t);
    ChargesSet(k, active, t, NEW);
  }

  lemma PaidSpend(p: R.Params, k: Account, n: nat, n': nat, active: map<Tid, Spent>, t: Tid, u: Spent)
    requires Paid(p, k, n, active) && t in active
    requires Charge(k, active[t]) <= Charge(k, u) <= k.m && n' - n <= Charge(k, u) - Charge(k, active[t])
    ensures Paid(p, k, n', active[t := u])
  {
    FitsSpend(p, k.m, n, n', Charges(k, active), t, Charge(k, u));
    ChargesSet(k, active, t, u);
  }

  lemma PaidEnd(p: R.Params, k: Account, n: nat, active: map<Tid, Spent>, t: Tid)
    requires Paid(p, k, n, active) && t in active
    ensures Paid(p, k, n, active - {t})
  {
    FitsEnd(p, k.m, n, Charges(k, active), t);
    ChargesDrop(k, active, t);
  }

  lemma BeginKeeps(p: R.Params, sh: Shape, rows: nat, c: Core, t: Tid)
    requires Sized(p, sh) && Inv(p, sh, rows, c) && Enabled(p, sh, rows, c, BeginOp(t))
    ensures Inv(p, sh, rows, Next(c, BeginOp(t)))
  {
    PaidBegin(p, OwnAccount(sh), |c.own|, Len(c), c.active, t);
    PaidBegin(p, WholeAccount(sh), Len(c), Len(c), c.active, t);
  }

  /** Any log_write: the operation's record becomes u, and the header has x own blocks and y bitmap blocks more. */
  lemma LogKeeps(p: R.Params, sh: Shape, rows: nat, c: Core, c': Core, t: Tid, u: Spent, x: nat, y: nat)
    requires Inv(p, sh, rows, c) && Open(c, t) && c' == c.(own := c'.own, bits := c'.bits, active := c.active[t := u])
    requires |c'.own| == |c.own| + x && |c'.bits| == |c.bits| + y && c'.bits <= Upto(rows)
    requires if u.closed then x <= 1 && y == 0
             else u.own == c.active[t].own + x < sh.own && u.bits == c.active[t].bits + y <= sh.bits
    ensures Inv(p, sh, rows, c')
  {
    PaidSpend(p, OwnAccount(sh), |c.own|, |c'.own|, c.active, t, u);
    PaidSpend(p, WholeAccount(sh), Len(c), Len(c'), c.active, t, u);
  }

  lemma EndKeeps(p: R.Params, sh: Shape, rows: nat, c: Core, t: Tid)
    requires Inv(p, sh, rows, c) && t in c.active
    ensures Inv(p, sh, rows, Next(c, EndOp(t)))
  {
    PaidEnd(p, OwnAccount(sh), |c.own|, c.active, t);
    PaidEnd(p, WholeAccount(sh), Len(c), c.active, t);
  }

  lemma StepKeeps(p: R.Params, sh: Shape, rows: nat, c: Core, e: Event)
    requires Sized(p, sh) && Inv(p, sh, rows, c) && Enabled(p, sh, rows, c, e)
    ensures Inv(p, sh, rows, Next(c, e))
  {
    var c' := Next(c, e);
    match e
    case BeginOp(t) => BeginKeeps(p, sh, rows, c, t);
    case LogOwn(t, b) => if b !in c.own { LogKeeps(p, sh, rows, c, c', t, c'.active[t], 1, 0); }
    case LogBits(t, row) => if row !in c.bits { LogKeeps(p, sh, rows, c, c', t, c'.active[t], 0, 1); }
    case LogLast(t, b) =>
      assert b in c.own ==> c.own + {b} == c.own;
      LogKeeps(p, sh, rows, c, c', t, c'.active[t], if b in c.own then 0 else 1, 0);
    case EndOp(t) => EndKeeps(p, sh, rows, c, t);
    case CommitDone => assert forall k: Account :: Charges(k, map[]) == map[];
  }

  lemma {:induction false} RunKeeps(p: R.Params, sh: Shape, rows: nat, tr: Trace, c: Core)
    requires Sized(p, sh) && Reached(p, sh, rows, tr, c)
    ensures Inv(p, sh, rows, c)
    decreases tr
  {
    if tr.Then? {
      var c1 :| Reached(p, sh, rows, tr.before, c1) && Enabled(p, sh, rows, c1, tr.e) && c == Next(c1, tr.e);
      RunKeeps(p, sh, rows, tr.before, c1);
      StepKeeps(p, sh, rows, c1, tr.e);
    }
  }

  /** The longest header that an operation can find with a log_write still to come. */
  function Longest(p: R.Params, sh: Shape, rows: nat): int {
    R.Worst(p, sh.own) - 1 + if rows < 2 * sh.bits then rows else 2 * sh.bits
  }

  lemma Found(p: R.Params, sh: Shape, rows: nat, c: Core, t: Tid)
    requires Sized(p, sh) && Inv(p, sh, rows, c) && Open(c, t)
    ensures Len(c) <= Longest(p, sh, rows)
  {
    FitsFound(p, sh.own, |c.own|, Charges(OwnAccount(sh), c.active), t);
    FitsFound(p, sh.own + sh.bits, Len(c), Charges(WholeAccount(sh), c.active), t);
    PartSize(c.bits, Upto(rows));
  }

  // ---------------------------------------------------------------------------------------
  // The run that finds the longest header, or panics before.

  ghost function Two(u: Spent, v: Spent): map<Tid, Spent> { map[0 := u, 1 := v] }

  /** n own blocks and m bitmap blocks are logged, and operations 0 and perhaps 1 are in progress. */
  datatype Goal = Goal(n: nat, m: nat, u: Spent, second: bool, v: Spent)

  ghost function At(g: Goal): Core {
    Core(Upto(g.n), Upto(g.m), if g.second then Two(g.u, g.v) else map[0 := g.u], false)
  }

  /** A run that comes to the goal, or to a panic. */
  ghost predicate Led(p: R.Params, sh: Shape, rows: nat, tr: Trace, c: Core, g: Goal) {
    Reached(p, sh, rows, tr, c) && (c == At(g) || Panics(p, c))
  }

  /** A log_write, unless the panic is here. */
  lemma GoesOn(p: R.Params, sh: Shape, rows: nat, tr: Trace, c: Core, g: Goal, e: Event, g': Goal)
    returns (tr': Trace, c': Core)
    requires e.LogOwn? || e.LogBits? || e.LogLast?
    requires Led(p, sh, rows, tr, c, g) && Open(At(g), e.t) && At(g') == Next(At(g), e)
    requires !TooBig(p, At(g)) ==> Enabled(p, sh, rows, At(g), e)
    ensures Led(p, sh, rows, tr', c', g')
  {
    if Panics(p, c) {
      tr', c' := tr, c;
    } else {
      assert !TooBig(p, c);
      tr', c' := Then(tr, e), Next(c, e);
    }
  }

  lemma UptoNext(n: nat)
    ensures Upto(n) + {n} == Upto(n + 1) && n !in Upto(n)
  {
  }

  ghost function Of(g: Goal, t: Tid): Spent { if t == 0 then g.u else g.v }

  ghost function Set(g: Goal, t: Tid, w: Spent): Goal { if t == 0 then g.(u := w) else g.(v := w) }

  lemma AtSet(g: Goal, t: Tid, w: Spent)
    requires g.second && t < 2
    ensures At(Set(g, t, w)) == At(g).(active := At(g).active[t := w])
    ensures t in At(g).active && At(g).active[t] == Of(g, t)
  {
    assert Two(g.u, g.v)[0 := w] == Two(w, g.v) && Two(g.u, g.v)[1 := w] == Two(g.u, w);
  }

  /** Operation t logs a block of its own, a bitmap block, or its last block. */
  ghost function Logged(g: Goal, e: Event): Goal {
    match e
    case LogOwn(t, _) => Set(g.(n := g.n + 1), t, Of(g, t).(own := Of(g, t).own + 1))
    case LogBits(t, _) => Set(g.(m := g.m + 1), t, Of(g, t).(bits := Of(g, t).bits + 1))
    case LogLast(t, _) => Set(g.(n := g.n + 1), t, Spent(Of(g, t).own + 1, Of(g, t).bits, true))
    case _ => g
  }

  lemma AtOwn(g: Goal, t: Tid)
    requires g.second && t < 2
    ensures t in At(g).active && At(g).active[t] == Of(g, t)
    ensures At(Logged(g, LogOwn(t, g.n))) == Next(At(g), LogOwn(t, g.n))
  {
    UptoNext(g.n);
    AtSet(g, t, Of(g, t));
    AtSet(g.(n := g.n + 1), t, Of(g, t).(own := Of(g, t).own + 1));
    assert At(g.(n := g.n + 1)) == At(g).(own := At(g).own + {g.n});
  }

  lemma AtBits(g: Goal, t: Tid)
    requires g.second && t < 2
    ensures t in At(g).active && At(g).active[t] == Of(g, t)
    ensures At(Logged(g, LogBits(t, g.m))) == Next(At(g), LogBits(t, g.m))
  {
    UptoNext(g.m);
    AtSet(g, t, Of(g, t));
    AtSet(g.(m := g.m + 1), t, Of(g, t).(bits := Of(g, t).bits + 1));
    assert At(g.(m := g.m + 1)) == At(g).(bits := At(g).bits + {g.m});
  }

  lemma AtLast(g: Goal, t: Tid)
    requires g.second && t < 2
    ensures t in At(g).active && At(g).active[t] == Of(g, t)
    ensures At(Logged(g, LogLast(t, g.n))) == Next(At(g), LogLast(t, g.n))
  {
    UptoNext(g.n);
    AtSet(g, t, Of(g, t));
    AtSet(g.(n := g.n + 1), t, Spent(Of(g, t).own + 1, Of(g, t).bits, true));
    assert At(g.(n := g.n + 1)) == At(g).(own := At(g).own + {g.n});
  }

  lemma Logs(p: R.Params, sh: Shape, rows: nat, tr: Trace, c: Core, g: Goal, e: Event, g': Goal)
    returns (tr': Trace, c': Core)
    requires Led(p, sh, rows, tr, c, g) && g.second && g' == Logged(g, e)
    requires match e
             case LogOwn(t, b) => t < 2 && b == g.n && !Of(g, t).closed && Of(g, t).own + 1 < sh.own
             case LogBits(t, r) => t < 2 && r == g.m < rows && !Of(g, t).closed && Of(g, t).bits < sh.bits
             case LogLast(t, b) => t < 2 && b == g.n && !Of(g, t).closed
             case _ => false
    ensures Led(p, sh, rows, tr', c', g')
  {
    match e {
      case LogOwn(t, _) => AtOwn(g, t);
      case LogBits(t, _) => AtBits(g, t);
      case LogLast(t, _) => AtLast(g, t);
    }
    tr', c' := GoesOn(p, sh, rows, tr, c, g, e, g');
  }

  lemma FirstBegins(p: R.Params, sh: Shape, rows: nat, g: Goal) returns (tr: Trace, c: Core)
    requires p.maxOp <= p.logSize && g == Goal(0, 0, NEW, false, NEW)
    ensures Led(p, sh, rows, tr, c, g) && Reached(p, sh, rows, tr, c) && c == Core({}, {}, map[0 := NEW], false)
  {
    assert Reached(p, sh, rows, Start, BOOT);
    assert R.Slots(1, p.maxOp) == p.maxOp + R.Slots(0, p.maxOp);
    tr, c := Then(Start, BeginOp(0)), Next(BOOT, BeginOp(0));
    assert c == At(g);
  }

  lemma SecondBegins(p: R.Params, sh: Shape, rows: nat, tr: Trace, c: Core, g: Goal, g': Goal)
    returns (tr': Trace, c': Core)
    requires Led(p, sh, rows, tr, c, g) && !g.second && g.m == 0 && g.n + 2 * p.maxOp <= p.logSize
    requires g' == g.(second := true, v := NEW)
    ensures Led(p, sh, rows, tr', c', g')
  {
    if Panics(p, c) {
      tr', c' := tr, c;
    } else {
      assert R.Slots(2, p.maxOp) == p.maxOp + R.Slots(1, p.maxOp) == 2 * p.maxOp;
      tr', c' := Then(tr, BeginOp(1)), Next(c, BeginOp(1));
      assert map[0 := g.u][1 := NEW] == Two(g.u, NEW);
    }
  }

  lemma SecondEnds(p: R.Params, sh: Shape, rows: nat, tr: Trace, c: Core, g: Goal, g': Goal)
    returns (tr': Trace, c': Core)
    requires Led(p, sh, rows, tr, c, g) && g.second && g' == g.(second := false, v := NEW)
    ensures Led(p, sh, rows, tr', c', g')
  {
    if Panics(p, c) {
      tr', c' := tr, c;
    } else {
      tr', c' := Then(tr, EndOp(1)), Next(c, EndOp(1));
      assert Two(g.u, g.v) - {1} == map[0 := g.u];
      assert |map[0 := g.u]| == 1;
    }
  }

  /** n operations come, log one block each and go, beside one that stays. */
  lemma {:induction false} Visits(p: R.Params, sh: Shape, rows: nat, g: Goal) returns (tr: Trace, c: Core)
    requires g.n + 2 * p.maxOp <= p.logSize && g == Goal(g.n, 0, NEW, false, NEW)
    ensures Led(p, sh, rows, tr, c, g)
    decreases g.n
  {
    if g.n == 0 {
      tr, c := FirstBegins(p, sh, rows, g);
    } else {
      var g0, g2 := g.(n := g.n - 1), g.(second := true, v := Spent(1, 0, true));
      var tr0, c0 := Visits(p, sh, rows, g0);
      var tr1, c1 := SecondBegins(p, sh, rows, tr0, c0, g0, g0.(second := true));
      var tr2, c2 := Logs(p, sh, rows, tr1, c1, g0.(second := true), LogLast(1, g0.n), g2);
      tr, c := SecondEnds(p, sh, rows, tr2, c2, g2, g);
    }
  }

  /** Then a second stays, and the first logs blocks of its own, */
  lemma {:induction false} FirstOwn(p: R.Params, sh: Shape, rows: nat, g: Goal) returns (tr: Trace, c: Core)
    requires g.u.own < sh.own && g.u.own <= g.n && g.n - g.u.own + 2 * p.maxOp <= p.logSize
    requires g == Goal(g.n, 0, Spent(g.u.own, 0, false), true, NEW)
    ensures Led(p, sh, rows, tr, c, g)
    decreases g.u.own
  {
    if g.u.own == 0 {
      var tr0, c0 := Visits(p, sh, rows, g.(second := false));
      tr, c := SecondBegins(p, sh, rows, tr0, c0, g.(second := false), g);
    } else {
      var g0 := g.(n := g.n - 1, u := Spent(g.u.own - 1, 0, false));
      var tr0, c0 := FirstOwn(p, sh, rows, g0);
      tr, c := Logs(p, sh, rows, tr0, c0, g0, LogOwn(0, g0.n), g);
    }
  }

  /** the second too, */
  lemma {:induction false} SecondOwn(p: R.Params, sh: Shape, rows: nat, g: Goal) returns (tr: Trace, c: Core)
    requires g.u.own < sh.own && g.v.own < sh.own && g.u.own + g.v.own <= g.n
    requires g.n - g.u.own - g.v.own + 2 * p.maxOp <= p.logSize
    requires g == Goal(g.n, 0, Spent(g.u.own, 0, false), true, Spent(g.v.own, 0, false))
    ensures Led(p, sh, rows, tr, c, g)
    decreases g.v.own
  {
    if g.v.own == 0 {
      tr, c := FirstOwn(p, sh, rows, g);
    } else {
      var g0 := g.(n := g.n - 1, v := Spent(g.v.own - 1, 0, false));
      var tr0, c0 := SecondOwn(p, sh, rows, g0);
      tr, c := Logs(p, sh, rows, tr0, c0, g0, LogOwn(1, g0.n), g);
    }
  }

  /** and both log bitmap blocks. */
  lemma {:induction false} BothBits(p: R.Params, sh: Shape, rows: nat, g: Goal) returns (tr: Trace, c: Core)
    requires g.u.own < sh.own && g.v.own < sh.own && g.u.own + g.v.own <= g.n
    requires g.n - g.u.own - g.v.own + 2 * p.maxOp <= p.logSize
    requires g.u.bits <= sh.bits && g.v.bits <= sh.bits && g.m == g.u.bits + g.v.bits <= rows
    requires !g.u.closed && !g.v.closed && g.second
    ensures Led(p, sh, rows, tr, c, g)
    decreases g.m
  {
    if g.v.bits > 0 {
      var g0 := g.(m := g.m - 1, v := g.v.(bits := g.v.bits - 1));
      var tr0, c0 := BothBits(p, sh, rows, g0);
      tr, c := Logs(p, sh, rows, tr0, c0, g0, LogBits(1, g0.m), g);
    } else if g.u.bits > 0 {
      var g0 := g.(m := g.m - 1, u := g.u.(bits := g.u.bits - 1));
      var tr0, c0 := BothBits(p, sh, rows, g0);
      tr, c := Logs(p, sh, rows, tr0, c0, g0, LogBits(0, g0.m), g);
    } else {
      tr, c := SecondOwn(p, sh, rows, g);
    }
  }

  // An operation may log any few blocks that are not in the header.

  ghost function WithOwn(c: Core, t: Tid, own: set<nat>): Core
    requires Open(c, t)
  {
    c.(own := c.own + own, active := c.active[t := Spent(c.active[t].own + |own|, c.active[t].bits, false)])
  }

  ghost function WithBits(c: Core, t: Tid, bits: set<nat>): Core
    requires Open(c, t)
  {
    c.(bits := c.bits + bits, active := c.active[t := Spent(c.active[t].own, c.active[t].bits + |bits|, false)])
  }

  lemma WithNone(c: Core, t: Tid)
    requires Open(c, t)
    ensures WithOwn(c, t, {}) == c && WithBits(c, t, {}) == c
  {
    assert c.own + {} == c.own && c.bits + {} == c.bits;
  }

  lemma OneMore(x: set<nat>, y: set<nat>, b: nat)
    requires x !! y && b in y
    ensures |y - {b}| == |y| - 1 && x + (y - {b}) + {b} == x + y && b !in x + (y - {b})
    ensures |x + (y - {b})| == |x| + |y| - 1
  {
  }

  lemma OneOwn(p: R.Params, sh: Shape, rows: nat, c: Core, t: Tid, own: set<nat>, b: nat)
    requires Open(c, t) && b in own && own !! c.own && c.active[t].own + |own| < sh.own
    requires Len(c) + |own| <= p.logSize && Len(c) + |own| <= p.onDisk - 1
    ensures Enabled(p, sh, rows, WithOwn(c, t, own - {b}), LogOwn(t, b))
    ensures Next(WithOwn(c, t, own - {b}), LogOwn(t, b)) == WithOwn(c, t, own)
  {
    OneMore(c.own, own, b);
  }

  lemma OneBits(p: R.Params, sh: Shape, rows: nat, c: Core, t: Tid, bits: set<nat>, b: nat)
    requires Open(c, t) && b in bits && bits !! c.bits && bits <= Upto(rows) && c.active[t].bits + |bits| <= sh.bits
    requires Len(c) + |bits| <= p.logSize && Len(c) + |bits| <= p.onDisk - 1
    ensures Enabled(p, sh, rows, WithBits(c, t, bits - {b}), LogBits(t, b))
    ensures Next(WithBits(c, t, bits - {b}), LogBits(t, b)) == WithBits(c, t, bits)
  {
    OneMore(c.bits, bits, b);
  }

  lemma {:induction false} LogsOwn(p: R.Params, sh: Shape, rows: nat, tr: Trace, c: Core, t: Tid, own: set<nat>)
    returns (tr': Trace)
    requires Reached(p, sh, rows, tr, c) && Open(c, t) && own !! c.own && c.active[t].own + |own| < sh.own
    requires Len(c) + |own| <= p.logSize && Len(c) + |own| <= p.onDisk - 1
    ensures Reached(p, sh, rows, tr', WithOwn(c, t, own))
    decreases |own|
  {
    if own == {} {
      WithNone(c, t);
      tr' := tr;
    } else {
      var b :| b in own;
      OneOwn(p, sh, rows, c, t, own, b);
      var tr1 := LogsOwn(p, sh, rows, tr, c, t, own - {b});
      tr' := Then(tr1, LogOwn(t, b));
    }
  }

  lemma {:induction false} LogsBits(p: R.Params, sh: Shape, rows: nat, tr: Trace, c: Core, t: Tid, bits: set<nat>)
    returns (tr': Trace)
    requires Reached(p, sh, rows, tr, c) && Open(c, t) && bits !! c.bits && bits <= Upto(rows)
    requires c.active[t].bits + |bits| <= sh.bits
    requires Len(c) + |bits| <= p.logSize && Len(c) + |bits| <= p.onDisk - 1
    ensures Reached(p, sh, rows, tr', WithBits(c, t, bits))
    decreases |bits|
  {
    if bits == {} {
      WithNone(c, t);
      tr' := tr;
    } else {
      var b :| b in bits;
      OneBits(p, sh, rows, c, t, bits, b);
      var tr1 := LogsBits(p, sh, rows, tr, c, t, bits - {b});
      tr' := Then(tr1, LogBits(t, b));
    }
  }

  /** Then one of them logs its last block, and the other finds the header as long as it gets. */
  lemma PanicReachable(p: R.Params, sh: Shape, rows: nat) returns (tr: Trace, c: Core)
    requires Sized(p, sh) && (Longest(p, sh, rows) >= p.logSize || Longest(p, sh, rows) >= p.onDisk - 1)
    ensures Reached(p, sh, rows, tr, c) && Panics(p, c)
  {
    var k := sh.own - 1;
    var i := if rows < sh.bits then rows else sh.bits;
    var j := if rows - i < sh.bits then rows - i else sh.bits;
    var n := p.logSize - 2 * p.maxOp + k + k;
    tr, c := LongFound(p, sh, rows, n, k, i, j);
  }

  lemma LongFound(p: R.Params, sh: Shape, rows: nat, n: nat, k: nat, i: nat, j: nat) returns (tr: Trace, c: Core)
    requires k < sh.own && k + k <= n && n - k - k + 2 * p.maxOp <= p.logSize
    requires i <= sh.bits && j <= sh.bits && i + j <= rows
    requires n + 1 + i + j >= p.logSize || n + 1 + i + j >= p.onDisk - 1
    ensures Reached(p, sh, rows, tr, c) && Panics(p, c)
  {
    var u, v := Spent(k, i, false), Spent(k, j, false);
    var g, g' := Goal(n, i + j, u, true, v), Goal(n + 1, i + j, Spent(k + 1, i, true), true, v);
    var tr0, c0 := BothBits(p, sh, rows, g);
    tr, c := Logs(p, sh, rows, tr0, c0, g, LogLast(0, g.n), g');
    AtPanics(p, g');
  }

  lemma AtPanics(p: R.Params, g: Goal)
    requires g.second && !g.v.closed && (g.n + g.m >= p.logSize || g.n + g.m >= p.onDisk - 1)
    ensures Panics(p, At(g))
  {
    assert Open(At(g), 1);
  }

  /**
   "too big a transaction" is unreachable, in every interleaving of operations of this shape on a
   disk with this many bitmap blocks, exactly when the longest header leaves room for one block.
   */
  lemma SharedExact(p: R.Params, sh: Shape, rows: nat)
    requires Sized(p, sh)
    ensures (forall c | Reachable(p, sh, rows, c) :: !Panics(p, c))
       <==> Longest(p, sh, rows) < p.logSize && Longest(p, sh, rows) < p.onDisk - 1
  {
    if Longest(p, sh, rows) < p.logSize && Longest(p, sh, rows) < p.onDisk - 1 {
      forall c | Reachable(p, sh, rows, c) ensures !Panics(p, c) {
        var tr :| Reached(p, sh, rows, tr, c);
        RunKeeps(p, sh, rows, tr, c);
        forall t | Open(c, t) ensures !TooBig(p, c) { Found(p, sh, rows, c, t); }
      }
    } else {
      var tr, c := PanicReachable(p, sh, rows);
      assert Reachable(p, sh, rows, c);
    }
  }
}
