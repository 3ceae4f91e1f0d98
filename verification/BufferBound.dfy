/**
 How many buffers are enough: the panic of bget (kernel/bio.c) beside the pins of the log.

 `LogRefinement.BuffersSuffice` is one half.  Here a run is built that references as many buffers
 as that allows, so the bound is exact.
 */
module BufferBound {
  import opened Common
  import R = LogReservation
  import opened WriteAheadLog
  import opened LogRefinement

  // ---------------------------------------------------------------------------------------
  // Runs.

  ghost predicate Runs(lay: Layout, s0: State, d: nat, tr: Trace, s: State) {
    Legal(lay, s0, tr) && Bounded(lay, s0, tr, d) && After(lay, s0, tr) == s
  }

  lemma RunsOn(lay: Layout, s0: State, d: nat, tr: Trace, s: State, e: Event, s': State)
    requires Runs(lay, s0, d, tr, s) && Enabled(lay, s, e) && s' == Next(lay, s, e)
    requires e.LogWrite? ==> e.b in s.core.lh || s.core.active[e.t] < d
    ensures Runs(lay, s0, d, Then(tr, e), s')
  {
  }

  /** Thread t reads a block that is not cached. */
  lemma ReadBlock(lay: Layout, s0: State, d: nat, tr: Trace, s: State, t: R.Tid, b: nat)
    returns (tr': Trace, s': State, u: Buf)
    requires Runs(lay, s0, d, tr, s) && s.phase.Normal? && lay.Home(b) && b !in s.cache
    ensures Runs(lay, s0, d, tr', s') && s' == s.(cache := s.cache[b := u])
    ensures u.users == {t} && u.holder == Some(t) && !u.dirty
  {
    var s1 := Next(lay, s, Get(t, b));
    RunsOn(lay, s0, d, tr, s, Get(t, b), s1);
    tr', s' := Then(Then(tr, Get(t, b)), Lock(t, b)), Next(lay, s1, Lock(t, b));
    RunsOn(lay, s0, d, Then(tr, Get(t, b)), s1, Lock(t, b), s');
    u := s'.cache[b];
  }

  /** It logs the block and releases it. */
  lemma LogBlock(lay: Layout, s0: State, d: nat, tr: Trace, s: State, t: R.Tid, b: nat)
    returns (tr': Trace, s': State, u: Buf)
    requires Runs(lay, s0, d, tr, s) && s.phase.Normal? && lay.Home(b) && b !in s.core.lh
    requires t in s.core.active && s.core.active[t] < d && !R.TooBig(lay.p, s.core)
    requires b in s.cache && s.cache[b].users == {t} && s.cache[b].holder == Some(t)
    ensures Runs(lay, s0, d, tr', s')
    ensures s' == s.(core := R.Append(s.core, t, b), cache := s.cache[b := u]) && u.users == {} && u.holder == None
  {
    var s1 := Next(lay, s, LogWrite(t, b));
    RunsOn(lay, s0, d, tr, s, LogWrite(t, b), s1);
    tr', s' := Then(Then(tr, LogWrite(t, b)), Release(t, b)), Next(lay, s1, Release(t, b));
    RunsOn(lay, s0, d, Then(tr, LogWrite(t, b)), s1, Release(t, b), s');
    u := s'.cache[b];
  }

  lemma ReadAndLog(lay: Layout, s0: State, d: nat, tr: Trace, s: State, t: R.Tid, b: nat)
    returns (tr': Trace, s': State, u: Buf)
    requires Runs(lay, s0, d, tr, s) && s.phase.Normal? && lay.Home(b) && b !in s.cache && b !in s.core.lh
    requires t in s.core.active && s.core.active[t] < d && !R.TooBig(lay.p, s.core)
    ensures Runs(lay, s0, d, tr', s')
    ensures s' == s.(core := R.Append(s.core, t, b), cache := s.cache[b := u]) && u.users == {} && u.holder == None
  {
    var tr1, s1, u1 := ReadBlock(lay, s0, d, tr, s, t, b);
    tr', s', u := LogBlock(lay, s0, d, tr1, s1, t, b);
    assert s.cache[b := u1][b := u] == s.cache[b := u];
  }

  // ---------------------------------------------------------------------------------------
  // Filling the log, as `LogReservation.TwoFill` does, and then the cache.

  /** Just the n blocks from a on are cached and logged, and nobody uses one. */
  ghost predicate Resting(s: State, a: nat, n: nat) {
    && s.phase.Normal? && |s.core.lh| == n && !s.core.committing
    && (forall b :: b in s.cache <==> a <= b < a + n) && (forall b :: b in s.core.lh <==> a <= b < a + n)
    && (forall b | b in s.cache :: s.cache[b].users == {} && s.cache[b].holder == None)
  }

  lemma RestingMore(s: State, s': State, a: nat, n: nat, t: R.Tid, u: Buf)
    requires Resting(s, a, n) && t in s.core.active && u.users == {} && u.holder == None
    requires s' == s.(core := R.Append(s.core, t, a + n), cache := s.cache[a + n := u])
    ensures Resting(s', a, n + 1) && s'.core.active == s.core.active[t := s.core.active[t] + 1]
  {
    assert a + n !in s.core.lh;
  }

  /** A run that leaves it so, with these operations in progress. */
  ghost predicate Filled(lay: Layout, s0: State, d: nat, tr: Trace, s: State, a: nat, n: nat,
                         active: map<R.Tid, nat>) {
    Runs(lay, s0, d, tr, s) && Resting(s, a, n) && s.core.active == active
  }

  /** Operation t reads the next block, logs it and releases it. */
  lemma FillLog(lay: Layout, s0: State, d: nat, tr: Trace, s: State, a: nat, n: nat,
                active: map<R.Tid, nat>, t: R.Tid)
    returns (tr': Trace, s': State)
    requires Filled(lay, s0, d, tr, s, a, n, active) && lay.Home(a + n)
    requires t in active && active[t] < d && n < lay.p.logSize && n < lay.p.onDisk - 1
    ensures Filled(lay, s0, d, tr', s', a, n + 1, active[t := active[t] + 1])
  {
    assert a + n !in s.core.lh && a + n !in s.cache;
    var u;
    tr', s', u := ReadAndLog(lay, s0, d, tr, s, t, a + n);
    RestingMore(s, s', a, n, t, u);
  }

  lemma FillBegin(lay: Layout, s0: State, d: nat, tr: Trace, s: State, a: nat, n: nat,
                  active: map<R.Tid, nat>, t: R.Tid)
    returns (tr': Trace, s': State)
    requires Filled(lay, s0, d, tr, s, a, n, active) && t !in active
    requires n + R.Slots(|active| + 1, lay.p.maxOp) <= lay.p.logSize
    ensures Filled(lay, s0, d, tr', s', a, n, active[t := 0])
  {
    tr', s' := Then(tr, BeginOp(t)), s.(core := R.Begin(s.core, t));
    RunsOn(lay, s0, d, tr, s, BeginOp(t), s');
  }

  /** Two operations, the first to log i and j blocks. */
  ghost function Two(i: nat, j: nat): map<R.Tid, nat> { map[0 := i, 1 := j] }

  lemma FillEnd(lay: Layout, s0: State, d: nat, tr: Trace, s: State, a: nat, n: nat, i: nat, j: nat)
    returns (tr': Trace, s': State)
    requires Filled(lay, s0, d, tr, s, a, n, Two(i, j))
    ensures Filled(lay, s0, d, tr', s', a, n, map[0 := i])
  {
    tr', s' := Then(tr, EndOp(1)), s.(core := s.core.(active := map[0 := i]));
    assert Two(i, j) - {1} == map[0 := i] && |map[0 := i]| == 1;
    RunsOn(lay, s0, d, tr, s, EndOp(1), s');
  }

  lemma FillByFirst(lay: Layout, s0: State, d: nat, tr: Trace, s: State, a: nat, n: nat, i: nat, j: nat, n': nat,
                    i': nat)
    returns (tr': Trace, s': State)
    requires Filled(lay, s0, d, tr, s, a, n, Two(i, j)) && lay.Home(a + n) && n' == n + 1 && i' == i + 1
    requires i < d && n < lay.p.logSize && n < lay.p.onDisk - 1
    ensures Filled(lay, s0, d, tr', s', a, n', Two(i', j))
  {
    tr', s' := FillLog(lay, s0, d, tr, s, a, n, Two(i, j), 0);
    assert Two(i, j)[0 := i + 1] == Two(i', j);
  }

  lemma FillBySecond(lay: Layout, s0: State, d: nat, tr: Trace, s: State, a: nat, n: nat, i: nat, j: nat, n': nat,
                     j': nat)
    returns (tr': Trace, s': State)
    requires Filled(lay, s0, d, tr, s, a, n, Two(i, j)) && lay.Home(a + n) && n' == n + 1 && j' == j + 1
    requires j < d && n < lay.p.logSize && n < lay.p.onDisk - 1
    ensures Filled(lay, s0, d, tr', s', a, n', Two(i, j'))
  {
    tr', s' := FillLog(lay, s0, d, tr, s, a, n, Two(i, j), 1);
    assert Two(i, j)[1 := j + 1] == Two(i, j');
  }

  lemma FillSecond(lay: Layout, s0: State, d: nat, tr: Trace, s: State, a: nat, n: nat)
    returns (tr': Trace, s': State)
    requires Filled(lay, s0, d, tr, s, a, n, map[0 := 0]) && n + 2 * lay.p.maxOp <= lay.p.logSize
    ensures Filled(lay, s0, d, tr', s', a, n, Two(0, 0))
  {
    assert R.Slots(2, lay.p.maxOp) == lay.p.maxOp + R.Slots(1, lay.p.maxOp) == 2 * lay.p.maxOp;
    tr', s' := FillBegin(lay, s0, d, tr, s, a, n, map[0 := 0], 1);
    assert map[0 := 0][1 := 0] == Two(0, 0);
  }

  /** Nothing is cached or logged, and no operation is in progress. */
  ghost predicate Fresh(s0: State) { s0.phase.Normal? && s0.core == R.BOOT && s0.cache == map[] }

  lemma FillStart(lay: Layout, s0: State, d: nat, a: nat) returns (tr: Trace, s: State)
    requires Fresh(s0) && lay.p.maxOp <= lay.p.logSize
    ensures Filled(lay, s0, d, tr, s, a, 0, map[0 := 0])
  {
    assert Filled(lay, s0, d, Start, s0, a, 0, map[]);
    assert R.Slots(1, lay.p.maxOp) == lay.p.maxOp + R.Slots(0, lay.p.maxOp);
    tr, s := FillBegin(lay, s0, d, Start, s0, a, 0, map[], 0);
  }

  /** A second operation comes, logs a block and goes. */
  lemma FillVisit(lay: Layout, s0: State, d: nat, tr: Trace, s: State, a: nat, n: nat)
    returns (tr': Trace, s': State)
    requires Filled(lay, s0, d, tr, s, a, n, map[0 := 0]) && lay.Home(a + n)
    requires 1 <= d <= lay.p.maxOp && n + 2 * lay.p.maxOp <= lay.p.logSize && n + 1 < lay.p.onDisk
    ensures Filled(lay, s0, d, tr', s', a, n + 1, map[0 := 0])
  {
    var tr1, s1 := FillSecond(lay, s0, d, tr, s, a, n);
    var tr2, s2 := FillBySecond(lay, s0, d, tr1, s1, a, n, 0, 0, n + 1, 1);
    tr', s' := FillEnd(lay, s0, d, tr2, s2, a, n + 1, 0, 1);
  }

  /** One operation stays open while n others come and go. */
  lemma {:induction false} FillOneOpen(lay: Layout, s0: State, d: nat, a: nat, n: nat) returns (tr: Trace, s: State)
    requires Fresh(s0) && lay.start + lay.p.onDisk <= a && a + n <= lay.nblocks
    requires 1 <= d <= lay.p.maxOp && n + 2 * lay.p.maxOp <= lay.p.logSize && n + 1 < lay.p.onDisk
    ensures Filled(lay, s0, d, tr, s, a, n, map[0 := 0])
    decreases n
  {
    if n == 0 {
      tr, s := FillStart(lay, s0, d, a);
    } else {
      var tr1, s1 := FillOneOpen(lay, s0, d, a, n - 1);
      tr, s := FillVisit(lay, s0, d, tr1, s1, a, n - 1);
    }
  }

  /** Then a second begins, the first logs i blocks more, */
  lemma {:induction false} FillFirst(lay: Layout, s0: State, d: nat, a: nat, n: nat, i: nat, m: nat)
    returns (tr: Trace, s: State)
    requires Fresh(s0) && lay.start + lay.p.onDisk <= a && m == n + i && a + m <= lay.nblocks
    requires 1 <= d <= lay.p.maxOp && n + 2 * lay.p.maxOp <= lay.p.logSize && i <= d
    requires m < lay.p.onDisk && n + 1 < lay.p.onDisk
    ensures Filled(lay, s0, d, tr, s, a, m, Two(i, 0))
    decreases i
  {
    if i == 0 {
      var tr1, s1 := FillOneOpen(lay, s0, d, a, m);
      tr, s := FillSecond(lay, s0, d, tr1, s1, a, m);
    } else {
      var tr1, s1 := FillFirst(lay, s0, d, a, n, i - 1, m - 1);
      tr, s := FillByFirst(lay, s0, d, tr1, s1, a, m - 1, i - 1, 0, m, i);
    }
  }

  /** and the second j. */
  lemma {:induction false} FillTwo(lay: Layout, s0: State, d: nat, a: nat, n: nat, i: nat, j: nat, m: nat)
    returns (tr: Trace, s: State)
    requires Fresh(s0) && lay.start + lay.p.onDisk <= a && m == n + i + j && a + m <= lay.nblocks
    requires 1 <= d <= lay.p.maxOp && n + 2 * lay.p.maxOp <= lay.p.logSize && i <= d && j <= d
    requires m < lay.p.onDisk && n + 1 < lay.p.onDisk
    ensures Filled(lay, s0, d, tr, s, a, m, Two(i, j))
    decreases j
  {
    if j == 0 {
      tr, s := FillFirst(lay, s0, d, a, n, i, m);
    } else {
      var tr1, s1 := FillTwo(lay, s0, d, a, n, i, j - 1, m - 1);
      tr, s := FillBySecond(lay, s0, d, tr1, s1, a, m - 1, i, j - 1, m, j);
    }
  }

  /** The n blocks from a on are logged, and a thread uses the k after those. */
  ghost predicate Crowded(s: State, a: nat, n: nat, k: nat) {
    && s.phase.Normal? && (forall b :: b in s.cache <==> a <= b < a + n + k)
    && (forall b :: b in s.core.lh <==> a <= b < a + n)
    && (forall b | b in s.cache :: s.cache[b].users != {} <==> a + n <= b)
  }

  lemma {:induction false} UseMore(lay: Layout, s0: State, d: nat, tr: Trace, s: State, a: nat, n: nat, k: nat)
    returns (tr': Trace, s': State)
    requires Runs(lay, s0, d, tr, s) && Crowded(s, a, n, 0)
    requires lay.start + lay.p.onDisk <= a && a + n + k <= lay.nblocks
    ensures Runs(lay, s0, d, tr', s') && Crowded(s', a, n, k)
    decreases k
  {
    if k == 0 {
      return tr, s;
    }
    var tr1, s1 := UseMore(lay, s0, d, tr, s, a, n, k - 1);
    tr', s' := UseOne(lay, s0, d, tr1, s1, a, n, k);
  }

  lemma UseOne(lay: Layout, s0: State, d: nat, tr: Trace, s: State, a: nat, n: nat, k: nat)
    returns (tr': Trace, s': State)
    requires k > 0 && Runs(lay, s0, d, tr, s) && Crowded(s, a, n, k - 1) && lay.Home(a + n + k - 1)
    ensures Runs(lay, s0, d, tr', s') && Crowded(s', a, n, k)
  {
    var b := a + n + k - 1;
    tr', s' := Then(tr, Get(2, b)), Next(lay, s, Get(2, b));
    RunsOn(lay, s0, d, tr, s, Get(2, b), s');
    assert s' == s.(cache := s.cache[b := s'.cache[b]]);
  }

  lemma {:induction false} SpanCount(x: set<nat>, a: nat, n: nat)
    requires forall b :: b in x <==> a <= b < a + n
    ensures |x| == n
    decreases n
  {
    if n == 0 {
      assert x == {};
    } else {
      SpanCount(x - {a + n - 1}, a, n - 1);
    }
  }

  lemma CrowdedCounts(lay: Layout, s: State, a: nat, n: nat, k: nat)
    requires Inv(lay, s) && Crowded(s, a, n, k)
    ensures |InUse(s)| == k && |Referenced(s)| == n + k
  {
    ReferencedAre(lay, s);
    SpanCount(InLogSet(s), a, n);
    SpanCount(InUse(s), a + n, k);
  }

  /** There is a run that references every buffer of the bound. */
  lemma BoundReached(lay: Layout, s0: State, d: nat, k: nat) returns (tr: Trace)
    requires Inv(lay, s0) && Fresh(s0) && 1 <= d <= lay.p.maxOp && 2 * lay.p.maxOp <= lay.p.logSize
    requires R.Worst(lay.p, d) < lay.p.onDisk - 1
    requires lay.start + lay.p.onDisk + R.Worst(lay.p, d) + k <= lay.nblocks
    ensures Legal(lay, s0, tr) && Bounded(lay, s0, tr, d)
    ensures After(lay, s0, tr).phase.Normal?
    ensures |InUse(After(lay, s0, tr))| == k && |Referenced(After(lay, s0, tr))| == R.Worst(lay.p, d) + k
  {
    var n: nat := lay.p.logSize - 2 * lay.p.maxOp;
    var a := lay.start + lay.p.onDisk;
    var tr1, s1 := FillTwo(lay, s0, d, a, n, d, d, n + d + d);
    var s;
    tr, s := UseMore(lay, s0, d, tr1, s1, a, n + d + d, k);
    RunKeeps(lay, s0, tr);
    CrowdedCounts(lay, s, a, n + d + d, k);
  }

  /** The buffers that commit and recovery hold beside the pinned ones: a block of the log, and in
      recovery also the block it is copied to. */
  ghost function CommitUses(s: State): nat {
    match s.phase
    case Normal => 0
    case Cleared => 0
    case Replaying(_) => 2
    case _ => 1
  }

  /**
   "no buffers" does not happen, over every run of operations that are each first to log at most d
   blocks while threads, commit and recovery use at most k buffers beside the pinned ones, exactly
   when the cache has more buffers than the longest header and k together.  The disk has that many
   blocks after the log.
   */
  lemma BuffersExact(lay: Layout, s0: State, d: nat, k: nat, nbuf: nat)
    requires Inv(lay, s0) && Fresh(s0) && 1 <= d <= lay.p.maxOp && 2 * lay.p.maxOp <= lay.p.logSize
    requires R.Worst(lay.p, d) < lay.p.onDisk - 1
    requires lay.start + lay.p.onDisk + R.Worst(lay.p, d) + k <= lay.nblocks
    ensures (forall tr | Legal(lay, s0, tr) && Bounded(lay, s0, tr, d) && Uses(After(lay, s0, tr)) <= k ::
               |Referenced(After(lay, s0, tr))| + CommitUses(After(lay, s0, tr)) < nbuf)
       <==> R.Worst(lay.p, d) + k < nbuf
  {
    if R.Worst(lay.p, d) + k < nbuf {
      forall tr | Legal(lay, s0, tr) && Bounded(lay, s0, tr, d) && Uses(After(lay, s0, tr)) <= k
        ensures |Referenced(After(lay, s0, tr))| + CommitUses(After(lay, s0, tr)) < nbuf
      {
        BuffersSuffice(lay, s0, tr, d, nbuf - CommitUses(After(lay, s0, tr)));
      }
    } else {
      var tr := BoundReached(lay, s0, d, k);
    }
  }

  ghost function Uses(s: State): nat { |InUse(s)| + CommitUses(s) }
}
