/**
 The in-memory log header and the space reservation of kernel/log.c.

 `begin_op` admits an operation only when the log could absorb MAXOPBLOCKS more blocks for
 every operation in progress; `log_write` refuses ("too big a transaction") by looking at the
 header length alone, before absorption.  The theorems here give the exact relation between
 LOGSIZE, MAXOPBLOCKS, the on-disk log size and the number of blocks an operation may be first
 to log under which that refusal is unreachable in every interleaving.
 */
module LogReservation {

  type Tid = nat
  type BlockNo = nat

  /** MAXOPBLOCKS, LOGSIZE, and log.size (the on-disk log, header block included). */
  datatype Params = Params(maxOp: nat, logSize: nat, onDisk: nat)

  /** What log.lock guards.  `active` maps each operation between begin_op and end_op to the
      number of blocks it was the first to log; log.outstanding is its cardinality. */
  datatype Core = Core(lh: seq<BlockNo>, active: map<Tid, nat>, committing: bool)

  const BOOT := Core([], map[], false)

  /** Header slots set aside for n operations: n * maxOp, spelled out by addition. */
  function Slots(n: nat, maxOp: nat): nat {
    if n == 0 then 0 else maxOp + Slots(n - 1, maxOp)
  }

  lemma {:induction false} SlotsIsProduct(n: nat, maxOp: nat)
    ensures Slots(n, maxOp) == n * maxOp
  {
    if n > 0 {
      SlotsIsProduct(n - 1, maxOp);
      assert n * maxOp == (n - 1) * maxOp + maxOp;
    }
  }

  /** begin_op admits one more operation. */
  predicate CanBegin(p: Params, c: Core) {
    !c.committing && |c.lh| + Slots(|c.active| + 1, p.maxOp) <= p.logSize
  }

  function Begin(c: Core, t: Tid): Core {
    c.(active := c.active[t := 0])
  }

  /** The panic guard at the top of log_write. */
  predicate TooBig(p: Params, c: Core) {
    |c.lh| >= p.logSize || |c.lh| >= p.onDisk - 1
  }

  /** The rest of log_write: absorb a block already in the header, otherwise append it. */
  function Append(c: Core, t: Tid, b: BlockNo): Core
    requires t in c.active
  {
    if b in c.lh then c else c.(lh := c.lh + [b], active := c.active[t := c.active[t] + 1])
  }

  function End(c: Core, t: Tid): Core {
    var active := c.active - {t};
    c.(active := active, committing := |active| == 0)
  }

  /** commit() has emptied the header and end_op clears `committing`. */
  function Finish(c: Core): Core {
    c.(lh := [], committing := false)
  }

  // ---------------------------------------------------------------------------------------
  // The interleavings of operations that are each first to log at most `d` blocks.

  datatype Event = BeginOp(t: Tid) | LogWrite(t: Tid, b: BlockNo) | EndOp(t: Tid) | CommitDone

  predicate Enabled(p: Params, d: nat, c: Core, e: Event) {
    match e
    case BeginOp(t) => t !in c.active && CanBegin(p, c)
    case LogWrite(t, b) => t in c.active && !TooBig(p, c) && (b in c.lh || c.active[t] < d)
    case EndOp(t) => t in c.active
    case CommitDone => c.committing
  }

  function Next(p: Params, d: nat, c: Core, e: Event): Core
    requires Enabled(p, d, c, e)
  {
    match e
    case BeginOp(t) => Begin(c, t)
    case LogWrite(t, b) => Append(c, t, b)
    case EndOp(t) => End(c, t)
    case CommitDone => Finish(c)
  }

  /** A run since boot: the events so far, latest outermost. */
  datatype Trace = Start | Then(before: Trace, e: Event)

  ghost predicate Reached(p: Params, d: nat, tr: Trace, c: Core)
    decreases tr
  {
    match tr
    case Start => c == BOOT
    case Then(before, e) => exists c1 :: Reached(p, d, before, c1) && Enabled(p, d, c1, e) && c == Next(p, d, c1, e)
  }

  ghost predicate Reachable(p: Params, d: nat, c: Core) {
    exists tr :: Reached(p, d, tr, c)
  }

  /** Some operation in progress calls log_write and finds the header too long. */
  predicate Panics(p: Params, c: Core) {
    |c.active| > 0 && TooBig(p, c)
  }

  // ---------------------------------------------------------------------------------------
  // The reservation invariant.

  /** Header slots that operations in progress have reserved and not used. */
  ghost function Unspent(m: nat, active: map<Tid, nat>): int
    decreases |active|
  {
    if |active| == 0 then 0 else
      var t :| t in active;
      m - active[t] + Unspent(m, active - {t})
  }

  lemma {:induction false} UnspentRemove(m: nat, active: map<Tid, nat>, t: Tid)
    requires t in active
    ensures Unspent(m, active) == m - active[t] + Unspent(m, active - {t})
    decreases |active|
  {
    var u :| u in active && Unspent(m, active) == m - active[u] + Unspent(m, active - {u});
    if u != t {
      UnspentRemove(m, active - {u}, t);
      UnspentRemove(m, active - {t}, u);
      assert active - {u} - {t} == active - {t} - {u};
    }
  }

  lemma UnspentUpdate(m: nat, active: map<Tid, nat>, t: Tid, v: nat)
    ensures Unspent(m, active[t := v]) == m - v + Unspent(m, active - {t})
  {
    UnspentRemove(m, active[t := v], t);
    assert active[t := v] - {t} == active - {t};
  }

  lemma {:induction false} UnspentAtLeast(m: nat, d: nat, active: map<Tid, nat>)
    requires d <= m && forall t | t in active :: active[t] <= d
    ensures Unspent(m, active) >= if |active| == 0 then 0 else if |active| == 1 then m - d else 2 * (m - d)
    decreases |active|
  {
    if |active| > 0 {
      var t :| t in active && Unspent(m, active) == m - active[t] + Unspent(m, active - {t});
      UnspentAtLeast(m, d, active - {t});
      assert (active - {t}).Keys == active.Keys - {t};
    }
  }

  lemma {:induction false} UnspentAtMost(m: nat, active: map<Tid, nat>)
    ensures Unspent(m, active) <= Slots(|active|, m)
    decreases |active|
  {
    if |active| > 0 {
      var t :| t in active && Unspent(m, active) == m - active[t] + Unspent(m, active - {t});
      UnspentAtMost(m, active - {t});
    }
  }

  /** The one operation in progress logged everything in the header itself. */
  predicate Alone(c: Core) {
    |c.active| == 1 && forall t | t in c.active :: |c.lh| <= c.active[t]
  }

  /** Every reservation fits; and once an operation runs beside others that have ended,
      what those left unused is lost to everyone. */
  ghost predicate Reserved(p: Params, d: nat, c: Core) {
    |c.lh| + Unspent(p.maxOp, c.active) + (if |c.active| == 1 then p.maxOp - d else 0) <= p.logSize
  }

  ghost predicate Inv(p: Params, d: nat, c: Core) {
    && (forall t | t in c.active :: c.active[t] <= d)
    && (c.committing ==> |c.active| == 0)
    && (|c.active| == 0 && !c.committing ==> c.lh == [])
    && (|c.active| > 0 ==> Alone(c) || Reserved(p, d, c))
  }

  lemma SingletonMap(active: map<Tid, nat>, t: Tid)
    requires t in active && |active| == 1
    ensures active.Keys == {t} && |active - {t}| == 0
  {
    assert |active.Keys - {t}| == 0;
    assert (active - {t}).Keys == active.Keys - {t};
  }

  lemma BeginReserves(p: Params, c: Core, t: Tid)
    requires t !in c.active && CanBegin(p, c)
    ensures |c.lh| + Unspent(p.maxOp, c.active[t := 0]) <= p.logSize
  {
    UnspentUpdate(p.maxOp, c.active, t, 0);
    assert c.active - {t} == c.active;
    UnspentAtMost(p.maxOp, c.active);
  }

  lemma BeginKeeps(p: Params, d: nat, c: Core, t: Tid)
    requires d <= p.maxOp && Inv(p, d, c) && Enabled(p, d, c, BeginOp(t))
    ensures Inv(p, d, Begin(c, t))
  {
    var c' := Begin(c, t);
    assert c'.active.Keys == c.active.Keys + {t};
    assert |c'.active| == |c'.active.Keys| == |c.active| + 1;
    if |c.active| == 0 {
      SingletonMap(c'.active, t);
      assert Alone(c');
    } else {
      BeginReserves(p, c, t);
      assert Reserved(p, d, c');
    }
  }

  lemma LogWriteKeeps(p: Params, d: nat, c: Core, t: Tid, b: BlockNo)
    requires d <= p.maxOp && Inv(p, d, c) && Enabled(p, d, c, LogWrite(t, b))
    ensures Inv(p, d, Append(c, t, b))
  {
    if b !in c.lh {
      var c' := Append(c, t, b);
      assert c'.active.Keys == c.active.Keys;
      assert |c'.active| == |c.active|;
      if Alone(c) {
        SingletonMap(c.active, t);
        assert Alone(c');
      } else {
        UnspentRemove(p.maxOp, c.active, t);
        UnspentUpdate(p.maxOp, c.active, t, c.active[t] + 1);
      }
    }
  }

  lemma EndKeeps(p: Params, d: nat, c: Core, t: Tid)
    requires d <= p.maxOp && Inv(p, d, c) && Enabled(p, d, c, EndOp(t))
    ensures Inv(p, d, End(c, t))
  {
    var c' := End(c, t);
    assert c'.active.Keys == c.active.Keys - {t};
    if |c'.active| > 0 {
      UnspentRemove(p.maxOp, c.active, t);
    }
  }

  lemma StepKeeps(p: Params, d: nat, c: Core, e: Event)
    requires d <= p.maxOp && Inv(p, d, c) && Enabled(p, d, c, e)
    ensures Inv(p, d, Next(p, d, c, e))
  {
    match e
    case BeginOp(t) => BeginKeeps(p, d, c, t);
    case LogWrite(t, b) => LogWriteKeeps(p, d, c, t, b);
    case EndOp(t) => EndKeeps(p, d, c, t);
    case CommitDone =>
  }

  lemma {:induction false} RunKeeps(p: Params, d: nat, tr: Trace, c: Core)
    requires d <= p.maxOp && Reached(p, d, tr, c)
    ensures Inv(p, d, c)
  {
    if tr.Then? {
      var c1 :| Reached(p, d, tr.before, c1) && Enabled(p, d, c1, tr.e) && c == Next(p, d, c1, tr.e);
      RunKeeps(p, d, tr.before, c1);
      StepKeeps(p, d, c1, tr.e);
    }
  }

  /** The longest header an operation in progress can meet, over every interleaving. */
  function Worst(p: Params, d: nat): int {
    p.logSize - 2 * (p.maxOp - d)
  }

  lemma HeaderBound(p: Params, d: nat, c: Core)
    requires 2 * p.maxOp <= p.logSize && d <= p.maxOp
    requires Reachable(p, d, c) && |c.active| > 0
    ensures |c.lh| <= Worst(p, d)
  {
    var tr :| Reached(p, d, tr, c);
    RunKeeps(p, d, tr, c);
    var t :| t in c.active;
    if Alone(c) {
      assert |c.lh| <= c.active[t] <= d;
    } else {
      TwoUnspent(p, d, c);
    }
  }

  lemma TwoUnspent(p: Params, d: nat, c: Core)
    requires d <= p.maxOp && |c.active| > 0 && Reserved(p, d, c)
    requires forall t | t in c.active :: c.active[t] <= d
    ensures |c.lh| <= Worst(p, d)
  {
    UnspentAtLeast(p.maxOp, d, c.active);
  }

  /** The header is never longer than that, also while it is being committed. */
  lemma {:induction false} LengthBound(p: Params, d: nat, tr: Trace, c: Core)
    requires 2 * p.maxOp <= p.logSize && d <= p.maxOp && Reached(p, d, tr, c)
    ensures |c.lh| <= Worst(p, d)
  {
    if tr.Then? {
      var c1 :| Reached(p, d, tr.before, c1) && Enabled(p, d, c1, tr.e) && c == Next(p, d, c1, tr.e);
      LengthBound(p, d, tr.before, c1);
      if tr.e.LogWrite? {
        assert tr.e.t in c.active && Reachable(p, d, c);
        HeaderBound(p, d, c);
      }
    }
  }

  // ---------------------------------------------------------------------------------------
  // The bound is met: a run that fills the header to Worst(p, d).

  /** A reached state without a commit under way, with n blocks (all numbered below n) logged
      and the given operations in progress. */
  ghost predicate At(p: Params, d: nat, tr: Trace, c: Core, n: nat, ops: set<Tid>) {
    && Reached(p, d, tr, c)
    && !c.committing && |c.lh| == n && (forall b | b in c.lh :: b < n)
    && c.active.Keys == ops
  }

  lemma DoBegin(p: Params, d: nat, tr: Trace, c: Core, n: nat, ops: set<Tid>, t: Tid) returns (tr': Trace, c': Core)
    requires At(p, d, tr, c, n, ops) && t !in ops && n + Slots(|ops| + 1, p.maxOp) <= p.logSize
    ensures At(p, d, tr', c', n, ops + {t}) && c'.active[t] == 0
    ensures forall u | u in ops :: c'.active[u] == c.active[u]
  {
    assert |c.active| == |c.active.Keys|;
    tr', c' := Then(tr, BeginOp(t)), Begin(c, t);
  }

  /** Operation t logs a block that nobody has logged yet. */
  lemma DoLog(p: Params, d: nat, tr: Trace, c: Core, n: nat, ops: set<Tid>, t: Tid) returns (tr': Trace, c': Core)
    requires At(p, d, tr, c, n, ops) && t in ops && c.active[t] < d && n < p.logSize && n < p.onDisk - 1
    ensures At(p, d, tr', c', n + 1, ops) && c'.active[t] == c.active[t] + 1
    ensures forall u | u in ops && u != t :: c'.active[u] == c.active[u]
  {
    assert n !in c.lh;
    tr', c' := Then(tr, LogWrite(t, n)), Append(c, t, n);
  }

  lemma DoEnd(p: Params, d: nat, tr: Trace, c: Core, n: nat, ops: set<Tid>, t: Tid) returns (tr': Trace, c': Core)
    requires At(p, d, tr, c, n, ops) && t in ops && |ops| > 1
    ensures At(p, d, tr', c', n, ops - {t})
    ensures forall u | u in ops && u != t :: c'.active[u] == c.active[u]
  {
    tr', c' := Then(tr, EndOp(t)), End(c, t);
    assert c'.active.Keys == ops - {t};
    assert |c'.active| == |c'.active.Keys| == |ops| - 1;
  }

  /** One operation stays open while others come, log a block each and go. */
  lemma {:induction false} KeepOneOpen(p: Params, d: nat, n: nat) returns (tr: Trace, c: Core)
    requires 1 <= d <= p.maxOp && n + 2 * p.maxOp <= p.logSize
    requires n + 1 < p.onDisk
    ensures At(p, d, tr, c, n, {0}) && c.active[0] == 0
  {
    if n == 0 {
      assert At(p, d, Start, BOOT, 0, {});
      assert Slots(1, p.maxOp) == p.maxOp + Slots(0, p.maxOp);
      tr, c := DoBegin(p, d, Start, BOOT, 0, {}, 0);
    } else {
      tr, c := KeepOneOpen(p, d, n - 1);
      tr, c := SecondBegins(p, d, tr, c, n - 1);
      tr, c := DoLog(p, d, tr, c, n - 1, {0, 1}, 1);
      tr, c := DoEnd(p, d, tr, c, n, {0, 1}, 1);
      assert {0, 1} - {1} == {0};
    }
  }

  lemma SecondBegins(p: Params, d: nat, tr: Trace, c: Core, n: nat) returns (tr': Trace, c': Core)
    requires At(p, d, tr, c, n, {0}) && n + 2 * p.maxOp <= p.logSize
    ensures At(p, d, tr', c', n, {0, 1}) && c'.active[0] == c.active[0] && c'.active[1] == 0
  {
    assert Slots(2, p.maxOp) == p.maxOp + Slots(1, p.maxOp) == 2 * p.maxOp;
    tr', c' := DoBegin(p, d, tr, c, n, {0}, 1);
    assert {0} + {1} == {0, 1};
  }

  /** Then two operations fill the rest of the header, i and j blocks of it so far. */
  lemma {:induction false} TwoFill(p: Params, d: nat, n: nat, i: nat, j: nat) returns (tr: Trace, c: Core)
    requires 1 <= d <= p.maxOp && n + 2 * p.maxOp == p.logSize && i <= d && j <= d
    requires n + i + j < p.onDisk && n + 1 < p.onDisk
    ensures At(p, d, tr, c, n + i + j, {0, 1}) && c.active[0] == i && c.active[1] == j
    decreases i + j
  {
    if i + j == 0 {
      tr, c := KeepOneOpen(p, d, n);
      tr, c := SecondBegins(p, d, tr, c, n);
    } else if j > 0 {
      tr, c := TwoFill(p, d, n, i, j - 1);
      tr, c := DoLog(p, d, tr, c, n + i + (j - 1), {0, 1}, 1);
    } else {
      tr, c := TwoFill(p, d, n, i - 1, 0);
      tr, c := DoLog(p, d, tr, c, n + (i - 1), {0, 1}, 0);
    }
  }

  lemma MeetsPanic(p: Params, d: nat, tr: Trace, c: Core, n: nat, ops: set<Tid>)
    requires At(p, d, tr, c, n, ops) && ops != {} && (n >= p.logSize || n >= p.onDisk - 1)
    ensures exists c :: Reachable(p, d, c) && Panics(p, c)
  {
    assert |c.active| == |ops|;
    assert Reachable(p, d, c) && Panics(p, c);
  }

  /** If the log cannot even hold what comes before the last two operations, the operation
      that stays open meets the panic early. */
  lemma PanicEarly(p: Params, d: nat)
    requires 1 <= d <= p.maxOp && 2 * p.maxOp <= p.logSize
    requires p.onDisk <= p.logSize - 2 * p.maxOp + 1
    ensures exists c :: Reachable(p, d, c) && Panics(p, c)
  {
    if p.onDisk < 2 {
      assert At(p, d, Start, BOOT, 0, {});
      assert Slots(1, p.maxOp) == p.maxOp + Slots(0, p.maxOp);
      var tr, c := DoBegin(p, d, Start, BOOT, 0, {}, 0);
      MeetsPanic(p, d, tr, c, 0, {} + {0});
    } else {
      var n := p.onDisk - 2;
      var tr, c := KeepOneOpen(p, d, n);
      tr, c := DoLog(p, d, tr, c, n, {0}, 0);
      MeetsPanic(p, d, tr, c, n + 1, {0});
    }
  }

  /** Two open operations that together logged `both` blocks find the header too long. */
  lemma PanicLate(p: Params, d: nat, n: nat, both: nat)
    requires 1 <= d <= p.maxOp && n + 2 * p.maxOp == p.logSize && both <= 2 * d
    requires n + 1 < p.onDisk && n + both < p.onDisk
    requires n + both >= p.logSize || n + both >= p.onDisk - 1
    ensures exists c :: Reachable(p, d, c) && Panics(p, c)
  {
    var i := if both <= d then both else d;
    var tr, c := TwoFill(p, d, n, i, both - i);
    MeetsPanic(p, d, tr, c, n + both, {0, 1});
  }

  lemma PanicReachable(p: Params, d: nat)
    requires 1 <= d <= p.maxOp && 2 * p.maxOp <= p.logSize
    requires Worst(p, d) >= p.logSize || Worst(p, d) >= p.onDisk - 1
    ensures exists c :: Reachable(p, d, c) && Panics(p, c)
  {
    var n: nat := p.logSize - 2 * p.maxOp;
    if p.onDisk <= n + 1 {
      PanicEarly(p, d);
    } else {
      var room := p.onDisk - 1 - n;
      PanicLate(p, d, n, if 2 * d <= room then 2 * d else room);
    }
  }

  /**
   "too big a transaction" is unreachable, in every interleaving of operations that are each
   first to log at most d blocks, exactly when d leaves this much of MAXOPBLOCKS unused.
   */
  lemma ReservationExact(p: Params, d: nat)
    requires 1 <= d <= p.maxOp && 2 * p.maxOp <= p.logSize
    ensures (forall c | Reachable(p, d, c) :: !Panics(p, c))
       <==> 2 * (p.maxOp - d) >= 1 && 2 * (p.maxOp - d) >= p.logSize - p.onDisk + 2
  {
    if 2 * (p.maxOp - d) >= 1 && 2 * (p.maxOp - d) >= p.logSize - p.onDisk + 2 {
      forall c | Reachable(p, d, c) ensures !Panics(p, c) {
        if |c.active| > 0 { HeaderBound(p, d, c); }
      }
    } else {
      PanicReachable(p, d);
    }
  }

  /** MAXOPBLOCKS, LOGSIZE and the log mkfs lays out. */
  const XV6 := Params(10, 30, 30)

  /** On the shipped constants nine blocks are safe and ten are not. */
  lemma ReservationShipped(d: nat)
    requires 1 <= d <= 10
    ensures (forall c | Reachable(XV6, d, c) :: !Panics(XV6, c)) <==> d <= 9
  {
    ReservationExact(XV6, d);
  }
}
