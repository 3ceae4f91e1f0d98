/** A run in which kill does not reach a process that waits for its children (kernel/proc.c): two processes on
    two CPUs. */
module ProcKill {
  import opened Common
  import opened ProcProtocol
  import opened ProcInvariant
  import opened ProcTheorems
  import opened ProcHistory

  /** Two processes, what the two CPUs do, and the locks held. */
  function Two(p: Proc, q: Proc, a: Cpu, b: Cpu, locks: map<LockId, nat>): State {
    State([p, q], [a, b], locks, map[], {}, 0, NoCommit)
  }

  /** The first process, running. */
  function First(pc: PC, killed: bool): Proc { Proc(RUNNING, None, None, killed, pc) }

  /** The second, its child. */
  function Second(state: PState, pc: PC): Proc { Proc(state, None, Some(0), false, pc) }

  const ON0 := Cpu(Some(0), InProc(0))

  const ON1 := Cpu(Some(1), InProc(1))

  const OFF := Cpu(None, Sched)

  lemma Unlock(l: LockId, c: nat)
    ensures map[l := c] - {l} == map[]
  {
  }

  lemma UnlockOne(l: LockId, m: LockId, c: nat)
    requires l != m
    ensures map[l := c][m := c] - {m} == map[l := c]
    ensures map[l := c][m := c] - {l} == map[m := c]
  {
  }

  lemma More(P: Params, tr: Trace, s: State, e: Event, s': State) returns (tr': Trace)
    requires Reached(P, tr, s) && Enabled(P, s, e) && s' == Next(P, s, e)
    ensures Reached(P, tr', s')
  {
    tr' := Then(tr, e);
  }

  /** init comes to run. */
  lemma InitRuns(P: Params) returns (tr: Trace)
    requires P.init == 0
    ensures Reached(P, tr, Two(First(Idle, false), FREED, ON0, OFF, map[]))
  {
    var boot := Two(Proc(RUNNABLE, None, None, false, ForkRet), FREED, OFF, OFF, map[]);
    var held := Two(boot.procs[0], FREED, Cpu(None, SchedHold(0)), OFF, map[PLock(0) := 0]);
    var back := Two(First(ForkRet, false), FREED, ON0, OFF, map[PLock(0) := 0]);
    assert Reached(P, Start, boot);
    var t1 := More(P, Start, boot, SchedAcquire(0, 0), held);
    var t2 := More(P, t1, held, SchedRun(0), back);
    Unlock(PLock(0), 0);
    tr := More(P, t2, back, Continue(0, true), Two(First(Idle, false), FREED, ON0, OFF, map[]));
  }

  /** It forks: the second slot is free, and claimed. */
  lemma Forks(P: Params, tr: Trace) returns (tr': Trace)
    requires Reached(P, tr, Two(First(Idle, false), FREED, ON0, OFF, map[]))
    ensures Reached(P, tr', Two(First(ForkScan(0), false), FREED, ON0, OFF, map[]))
  {
    var s := Two(First(Idle, false), FREED, ON0, OFF, map[]);
    tr' := More(P, tr, s, Fork(0), Two(First(ForkScan(0), false), FREED, ON0, OFF, map[]));
  }

  lemma PassesItself(P: Params, tr: Trace) returns (tr': Trace)
    requires Reached(P, tr, Two(First(ForkScan(0), false), FREED, ON0, OFF, map[]))
    ensures Reached(P, tr', Two(First(ForkScan(1), false), FREED, ON0, OFF, map[]))
  {
    var s := Two(First(ForkScan(0), false), FREED, ON0, OFF, map[]);
    tr' := More(P, tr, s, Continue(0, true), Two(First(ForkScan(1), false), FREED, ON0, OFF, map[]));
  }

  lemma Claims(P: Params, tr: Trace) returns (tr': Trace)
    requires Reached(P, tr, Two(First(ForkScan(1), false), FREED, ON0, OFF, map[]))
    ensures Reached(P, tr', Two(First(ForkParent(1), false), Proc(USED, None, None, false, ForkRet), ON0, OFF, map[]))
  {
    var child := Proc(USED, None, None, false, ForkRet);
    var s0 := Two(First(ForkScan(1), false), FREED, ON0, OFF, map[]);
    var s1 := Two(First(ForkHold(1), false), child, ON0, OFF, map[PLock(1) := 0]);
    var t1 := More(P, tr, s0, Continue(0, true), s1);
    Unlock(PLock(1), 0);
    tr' := More(P, t1, s1, Continue(0, true), Two(First(ForkParent(1), false), child, ON0, OFF, map[]));
  }

  lemma Forked(P: Params, tr: Trace) returns (tr': Trace)
    requires Reached(P, tr, Two(First(ForkParent(1), false), Proc(USED, None, None, false, ForkRet), ON0, OFF, map[]))
    ensures Reached(P, tr', Two(First(Idle, false), Second(RUNNABLE, ForkRet), ON0, OFF, map[]))
  {
    var s0 := Two(First(ForkParent(1), false), Proc(USED, None, None, false, ForkRet), ON0, OFF, map[]);
    var s1 := Two(First(ForkRun(1), false), Second(USED, ForkRet), ON0, OFF, map[]);
    var t1 := More(P, tr, s0, Continue(0, true), s1);
    tr' := More(P, t1, s1, Continue(0, true), Two(First(Idle, false), Second(RUNNABLE, ForkRet), ON0, OFF, map[]));
  }

  /** The child comes to run on the other CPU. */
  lemma ChildRuns(P: Params, tr: Trace) returns (tr': Trace)
    requires Reached(P, tr, Two(First(Idle, false), Second(RUNNABLE, ForkRet), ON0, OFF, map[]))
    ensures Reached(P, tr', Two(First(Idle, false), Second(RUNNING, Idle), ON0, ON1, map[]))
  {
    var s0 := Two(First(Idle, false), Second(RUNNABLE, ForkRet), ON0, OFF, map[]);
    var s1 := Two(First(Idle, false), Second(RUNNABLE, ForkRet), ON0, Cpu(None, SchedHold(1)), map[PLock(1) := 1]);
    var s2 := Two(First(Idle, false), Second(RUNNING, ForkRet), ON0, ON1, map[PLock(1) := 1]);
    var t1 := More(P, tr, s0, SchedAcquire(1, 1), s1);
    var t2 := More(P, t1, s1, SchedRun(1), s2);
    Unlock(PLock(1), 1);
    tr' := More(P, t2, s2, Continue(1, true), Two(First(Idle, false), Second(RUNNING, Idle), ON0, ON1, map[]));
  }

  /** The first process calls wait, and scans. */
  lemma Scans(P: Params, tr: Trace) returns (tr': Trace)
    requires Reached(P, tr, Two(First(Idle, false), Second(RUNNING, Idle), ON0, ON1, map[]))
    ensures Reached(P, tr', Two(First(WaitScan(1, false), false), Second(RUNNING, Idle), ON0, ON1, map[WaitLock := 0]))
  {
    var q := Second(RUNNING, Idle);
    var s0 := Two(First(Idle, false), q, ON0, ON1, map[]);
    var s1 := Two(First(WaitScan(0, false), false), q, ON0, ON1, map[WaitLock := 0]);
    var t1 := More(P, tr, s0, Wait(0), s1);
    tr' := More(P, t1, s1, Continue(0, true), Two(First(WaitScan(1, false), false), q, ON0, ON1, map[WaitLock := 0]));
  }

  lemma MeetsChild(P: Params, tr: Trace) returns (tr': Trace)
    requires Reached(P, tr, Two(First(WaitScan(1, false), false), Second(RUNNING, Idle), ON0, ON1, map[WaitLock := 0]))
    ensures Reached(P, tr', Two(First(WaitScan(2, true), false), Second(RUNNING, Idle), ON0, ON1, map[WaitLock := 0]))
  {
    var q := Second(RUNNING, Idle);
    var s0 := Two(First(WaitScan(1, false), false), q, ON0, ON1, map[WaitLock := 0]);
    var s1 := Two(First(WaitChild(1), false), q, ON0, ON1, map[WaitLock := 0][PLock(1) := 0]);
    var t1 := More(P, tr, s0, Continue(0, true), s1);
    UnlockOne(WaitLock, PLock(1), 0);
    tr' := More(P, t1, s1, Continue(0, true), Two(First(WaitScan(2, true), false), q, ON0, ON1, map[WaitLock := 0]));
  }

  /** It finds that it has not been killed, and is killed before it sleeps. */
  lemma Killed(P: Params, tr: Trace) returns (tr': Trace)
    requires Reached(P, tr, Two(First(WaitScan(2, true), false), Second(RUNNING, Idle), ON0, ON1, map[WaitLock := 0]))
    ensures Reached(P, tr', Two(First(SleepEnter(InWait), true), Second(RUNNING, Idle), ON0, ON1, map[WaitLock := 0]))
  {
    var q := Second(RUNNING, Idle);
    var s0 := Two(First(WaitScan(2, true), false), q, ON0, ON1, map[WaitLock := 0]);
    var s1 := Two(First(SleepEnter(InWait), false), q, ON0, ON1, map[WaitLock := 0]);
    var t1 := More(P, tr, s0, Continue(0, true), s1);
    tr' := More(P, t1, s1, Kill(1, 0), Two(First(SleepEnter(InWait), true), q, ON0, ON1, map[WaitLock := 0]));
  }

  /** And then it sleeps. */
  lemma LocksItself(P: Params, tr: Trace) returns (tr': Trace)
    requires Reached(P, tr, Two(First(SleepEnter(InWait), true), Second(RUNNING, Idle), ON0, ON1, map[WaitLock := 0]))
    ensures Reached(P, tr', Two(First(SleepOnly(InWait), true), Second(RUNNING, Idle), ON0, ON1, map[PLock(0) := 0]))
  {
    var q := Second(RUNNING, Idle);
    var s0 := Two(First(SleepEnter(InWait), true), q, ON0, ON1, map[WaitLock := 0]);
    var s1 := Two(First(SleepBoth(InWait), true), q, ON0, ON1, map[WaitLock := 0][PLock(0) := 0]);
    var t1 := More(P, tr, s0, Continue(0, true), s1);
    UnlockOne(WaitLock, PLock(0), 0);
    tr' := More(P, t1, s1, Continue(0, true), Two(First(SleepOnly(InWait), true), q, ON0, ON1, map[PLock(0) := 0]));
  }

  const ASLEEP := Proc(SLEEPING, Some(ProcChan(0)), None, true, SleepBack(InWait))

  lemma Sleeps(P: Params, tr: Trace) returns (tr': Trace)
    requires Reached(P, tr, Two(First(SleepOnly(InWait), true), Second(RUNNING, Idle), ON0, ON1, map[PLock(0) := 0]))
    ensures Reached(P, tr', Two(ASLEEP, Second(RUNNING, Idle), OFF, ON1, map[]))
  {
    var q := Second(RUNNING, Idle);
    var s0 := Two(First(SleepOnly(InWait), true), q, ON0, ON1, map[PLock(0) := 0]);
    var s1 := Two(ASLEEP, q, Cpu(Some(0), SchedBack(0)), ON1, map[PLock(0) := 0]);
    var t1 := More(P, tr, s0, Continue(0, true), s1);
    Unlock(PLock(0), 0);
    tr' := More(P, t1, s1, SchedReturn(0), Two(ASLEEP, q, OFF, ON1, map[]));
  }

  /** There is a run after which a process that has been killed is asleep in wait, with no lock held: it will
      sleep on until a child of its own exits or it is killed again. */
  lemma KillLost(P: Params) returns (tr: Trace, s: State)
    requires P.init == 0
    ensures Reached(P, tr, s) && |s.procs| == 2 && s.locks == map[] && Deaf(s, 0)
    ensures s.procs[0].state == SLEEPING && s.procs[0].chan == Some(ProcChan(0))
  {
    tr := InitRuns(P);
    tr := Forks(P, tr);
    tr := PassesItself(P, tr);
    tr := Claims(P, tr);
    tr := Forked(P, tr);
    tr := ChildRuns(P, tr);
    tr := Scans(P, tr);
    tr := MeetsChild(P, tr);
    tr := Killed(P, tr);
    tr := LocksItself(P, tr);
    tr := Sleeps(P, tr);
    s := Two(ASLEEP, Second(RUNNING, Idle), OFF, ON1, map[]);
  }
}
