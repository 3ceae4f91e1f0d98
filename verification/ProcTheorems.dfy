/** What holds in every reachable state of the process protocol. */
module ProcTheorems {
  import opened Common
  import opened ProcProtocol
  import opened ProcInvariant
  import opened ProcSteps
  import opened ProcPreserve
  import R = LogReservation

  lemma ContinueResume(P: Params, s: State, c: nat, ok: bool)
    requires Inv(P, s) && Enabled(P, s, Continue(c, ok))
    requires var pc := s.procs[s.cpus[c].at.p].pc; pc.ForkRet? || pc.YieldLocked? || pc.YieldBack?
    ensures Inv(P, Next(P, s, Continue(c, ok)))
  {
    var p := s.cpus[c].at.p;
    match s.procs[p].pc
    case ForkRet => ResumeKeeps(P, s, c, p, ok);
    case YieldLocked(k) => YieldLockedKeeps(P, s, c, p, k, ok);
    case YieldBack(k) => YieldBackKeeps(P, s, c, p, k, ok);
  }

  lemma ContinueSleep(P: Params, s: State, c: nat, ok: bool)
    requires Inv(P, s) && Enabled(P, s, Continue(c, ok))
    requires var pc := s.procs[s.cpus[c].at.p].pc;
             pc.SleepEnter? || pc.SleepBoth? || pc.SleepOnly? || pc.SleepBack? || pc.SleepReacquire?
    ensures Inv(P, Next(P, s, Continue(c, ok)))
  {
    var p := s.cpus[c].at.p;
    match s.procs[p].pc
    case SleepEnter(at) => SleepEnterKeeps(P, s, c, p, at, ok);
    case SleepBoth(at) => SleepBothKeeps(P, s, c, p, at, ok);
    case SleepOnly(at) => SleepOnlyKeeps(P, s, c, p, at, ok);
    case SleepBack(at) => SleepBackKeeps(P, s, c, p, at, ok);
    case SleepReacquire(at) => ReacquireKeeps(P, s, c, p, at, ok);
  }

  lemma ContinueSleepLock(P: Params, s: State, c: nat, ok: bool)
    requires Inv(P, s) && Enabled(P, s, Continue(c, ok))
    requires var pc := s.procs[s.cpus[c].at.p].pc; pc.AcqCheck? || pc.RelClear?
    ensures Inv(P, Next(P, s, Continue(c, ok)))
  {
    var p := s.cpus[c].at.p;
    match s.procs[p].pc
    case AcqCheck(i) =>
      if i in s.sl {
        AcqSleepKeeps(P, s, c, p, i, ok);
      } else {
        AcqTakeKeeps(P, s, c, p, i, ok);
      }
    case RelClear(i) => RelClearKeeps(P, s, c, p, i, ok);
  }

  lemma ContinueWake(P: Params, s: State, c: nat, ok: bool)
    requires Inv(P, s) && Enabled(P, s, Continue(c, ok))
    requires var pc := s.procs[s.cpus[c].at.p].pc; pc.Wake?
    ensures Inv(P, Next(P, s, Continue(c, ok)))
  {
    var p := s.cpus[c].at.p;
    match s.procs[p].pc
    case Wake(ch, idx, k) =>
      if idx >= |s.procs| {
        WakeEndKeeps(P, s, c, p, ch, idx, k, ok);
      } else {
        WakeStepKeeps(P, s, c, p, ch, idx, k, ok);
      }
  }

  lemma ContinueOp(P: Params, s: State, c: nat, ok: bool)
    requires Inv(P, s) && Enabled(P, s, Continue(c, ok))
    requires var pc := s.procs[s.cpus[c].at.p].pc; pc.BeginCheck? || pc.EndDec? || pc.CommitFin?
    ensures Inv(P, Next(P, s, Continue(c, ok)))
  {
    var p := s.cpus[c].at.p;
    match s.procs[p].pc
    case BeginCheck =>
      if !s.commit.NoCommit? || TooFull(P, s) {
        BeginSleepKeeps(P, s, c, p, ok);
      } else {
        BeginTakeKeeps(P, s, c, p, ok);
      }
    case EndDec =>
      if |s.ops - {p}| == 0 {
        EndLastKeeps(P, s, c, p, ok);
      } else {
        EndMoreKeeps(P, s, c, p, ok);
      }
    case CommitFin => CommitFinKeeps(P, s, c, p, ok);
  }

  lemma ContinueWaitScan(P: Params, s: State, c: nat, ok: bool)
    requires Inv(P, s) && Enabled(P, s, Continue(c, ok))
    requires var pc := s.procs[s.cpus[c].at.p].pc; pc.WaitScan? || pc.WaitDone?
    ensures Inv(P, Next(P, s, Continue(c, ok)))
  {
    var p := s.cpus[c].at.p;
    match s.procs[p].pc
    case WaitScan(j, kids) =>
      if j < |s.procs| && s.procs[j].parent == Some(p) {
        WaitVisitKeeps(P, s, c, p, j, kids, ok);
      } else if j < |s.procs| {
        WaitPassKeeps(P, s, c, p, j, kids, ok);
      } else if !kids || s.procs[p].killed {
        WaitGiveUpKeeps(P, s, c, p, j, kids, ok);
      } else {
        WaitSleepKeeps(P, s, c, p, j, kids, ok);
      }
    case WaitDone => WaitDoneKeeps(P, s, c, p, ok);
  }

  lemma ContinueWaitChild(P: Params, s: State, c: nat, ok: bool)
    requires Inv(P, s) && Enabled(P, s, Continue(c, ok))
    requires var pc := s.procs[s.cpus[c].at.p].pc; pc.WaitChild?
    ensures Inv(P, Next(P, s, Continue(c, ok)))
  {
    var p := s.cpus[c].at.p;
    match s.procs[p].pc
    case WaitChild(j) =>
      if s.procs[j].state != ZOMBIE {
        WaitNextKeeps(P, s, c, p, j, ok);
      } else if ok {
        ReapKeeps(P, s, c, p, j, ok);
      } else {
        WaitFaultStepKeeps(P, s, c, p, j, ok);
      }
  }

  lemma ContinueReparent(P: Params, s: State, c: nat, ok: bool)
    requires Inv(P, s) && Enabled(P, s, Continue(c, ok))
    requires var pc := s.procs[s.cpus[c].at.p].pc; pc.ExitReparent?
    ensures Inv(P, Next(P, s, Continue(c, ok)))
  {
    var p := s.cpus[c].at.p;
    match s.procs[p].pc
    case ExitReparent(j) =>
      if j >= |s.procs| {
        ReparentEndKeeps(P, s, c, p, j, ok);
      } else if s.procs[j].parent == Some(p) {
        ReparentMoveKeeps(P, s, c, p, j, ok);
      } else {
        ReparentSkipKeeps(P, s, c, p, j, ok);
      }
  }

  lemma ContinueExit(P: Params, s: State, c: nat, ok: bool)
    requires Inv(P, s) && Enabled(P, s, Continue(c, ok))
    requires var pc := s.procs[s.cpus[c].at.p].pc; pc.ExitLock? || pc.ExitBoth? || pc.ExitZombie? || pc.ExitSched?
    ensures Inv(P, Next(P, s, Continue(c, ok)))
  {
    var p := s.cpus[c].at.p;
    match s.procs[p].pc
    case ExitLock => ExitLockKeeps(P, s, c, p, ok);
    case ExitBoth => ExitBothKeeps(P, s, c, p, ok);
    case ExitZombie => ExitZombieKeeps(P, s, c, p, ok);
    case ExitSched => ExitSchedKeeps(P, s, c, p, ok);
  }

  lemma ContinueForkScan(P: Params, s: State, c: nat, ok: bool)
    requires Inv(P, s) && Enabled(P, s, Continue(c, ok))
    requires var pc := s.procs[s.cpus[c].at.p].pc; pc.ForkScan?
    ensures Inv(P, Next(P, s, Continue(c, ok)))
  {
    var p := s.cpus[c].at.p;
    match s.procs[p].pc
    case ForkScan(j) =>
      if j < |s.procs| && s.procs[j].state == UNUSED {
        ForkClaimKeeps(P, s, c, p, j, ok);
      } else {
        ForkSkipKeeps(P, s, c, p, j, ok);
      }
  }

  lemma ContinueForkHold(P: Params, s: State, c: nat, ok: bool)
    requires Inv(P, s) && Enabled(P, s, Continue(c, ok))
    requires var pc := s.procs[s.cpus[c].at.p].pc; pc.ForkHold?
    ensures Inv(P, Next(P, s, Continue(c, ok)))
  {
    var p := s.cpus[c].at.p;
    match s.procs[p].pc
    case ForkHold(np) =>
      if ok {
        ForkHoldKeeps(P, s, c, p, np, ok);
      } else {
        ForkFailKeeps(P, s, c, p, np, ok);
      }
  }

  lemma ContinueForkEnd(P: Params, s: State, c: nat, ok: bool)
    requires Inv(P, s) && Enabled(P, s, Continue(c, ok))
    requires var pc := s.procs[s.cpus[c].at.p].pc; pc.ForkParent? || pc.ForkRun?
    ensures Inv(P, Next(P, s, Continue(c, ok)))
  {
    var p := s.cpus[c].at.p;
    match s.procs[p].pc
    case ForkParent(np) => ForkParentKeeps(P, s, c, p, np, ok);
    case ForkRun(np) => ForkRunKeeps(P, s, c, p, np, ok);
  }

  lemma ContinueKeeps(P: Params, s: State, c: nat, ok: bool)
    requires Inv(P, s) && Enabled(P, s, Continue(c, ok))
    ensures Inv(P, Next(P, s, Continue(c, ok)))
  {
    var pc := s.procs[s.cpus[c].at.p].pc;
    if pc.ForkRet? || pc.YieldLocked? || pc.YieldBack? {
      ContinueResume(P, s, c, ok);
    } else if pc.SleepEnter? || pc.SleepBoth? || pc.SleepOnly? || pc.SleepBack? || pc.SleepReacquire? {
      ContinueSleep(P, s, c, ok);
    } else if pc.AcqCheck? || pc.RelClear? {
      ContinueSleepLock(P, s, c, ok);
    } else if pc.Wake? {
      ContinueWake(P, s, c, ok);
    } else if pc.BeginCheck? || pc.EndDec? || pc.CommitFin? {
      ContinueOp(P, s, c, ok);
    } else if pc.WaitScan? || pc.WaitDone? {
      ContinueWaitScan(P, s, c, ok);
    } else if pc.WaitChild? {
      ContinueWaitChild(P, s, c, ok);
    } else if pc.ExitReparent? {
      ContinueReparent(P, s, c, ok);
    } else if pc.ExitLock? || pc.ExitBoth? || pc.ExitZombie? || pc.ExitSched? {
      ContinueExit(P, s, c, ok);
    } else if pc.ForkScan? {
      ContinueForkScan(P, s, c, ok);
    } else if pc.ForkHold? {
      ContinueForkHold(P, s, c, ok);
    } else {
      ContinueForkEnd(P, s, c, ok);
    }
  }

  lemma SchedKeeps(P: Params, s: State, e: Event)
    requires Inv(P, s) && Enabled(P, s, e) && (e.SchedAcquire? || e.SchedRun? || e.SchedSkip? || e.SchedReturn?)
    ensures Inv(P, Next(P, s, e))
  {
    match e
    case SchedAcquire(c, p) => SchedAcquireKeeps(P, s, c, p);
    case SchedRun(c) =>
      SchedRunKeeps(P, s, c);
      LogProcs(s, Next(P, s, e));
    case SchedSkip(c) =>
      assert CpuOk(s, c);
      SchedLeaveKeeps(P, s, c);
    case SchedReturn(c) => SchedLeaveKeeps(P, s, c);
  }

  lemma CallKeeps(P: Params, s: State, e: Event)
    requires Inv(P, s) && Enabled(P, s, e)
    requires e.Yield? || e.CommitWrite? || e.ReleaseSleep? || e.LogAppend? || e.Wait? || e.Exit? || e.Fork? || e.Kill?
    ensures Inv(P, Next(P, s, e))
  {
    match e
    case Yield(c) => YieldKeeps(P, s, c);
    case CommitWrite(c) => CommitWriteKeeps(P, s, c);
    case ReleaseSleep(c, i) => EnterReleaseKeeps(P, s, c, i);
    case LogAppend(c) => AppendKeeps(P, s, s.cpus[c].at.p);
    case Wait(c) => EnterWaitKeeps(P, s, c);
    case Exit(c) => EnterExitKeeps(P, s, c);
    case Fork(c) => EnterForkKeeps(P, s, c);
    case Kill(c, j) => KillKeeps(P, s, c, j);
  }

  lemma StepKeeps(P: Params, s: State, e: Event)
    requires Inv(P, s) && Enabled(P, s, e)
    ensures Inv(P, Next(P, s, e))
  {
    if e.SchedAcquire? || e.SchedRun? || e.SchedSkip? || e.SchedReturn? {
      SchedKeeps(P, s, e);
    } else if e.AcquireSleep? || e.BeginOp? || e.EndOp? || e.CommitEnd? {
      EnterKeeps(P, s, e);
    } else if e.Continue? {
      ContinueKeeps(P, s, e.c, e.ok);
    } else {
      CallKeeps(P, s, e);
    }
  }

  // ---------------------------------------------------------------------------------------
  // Runs.

  /** After boot: init is runnable, every other slot is unused, every CPU is in scheduler(). */
  predicate Boot(P: Params, s: State) {
    && P.init < |s.procs|
    && (forall p | 0 <= p < |s.procs| ::
          s.procs[p] == if p == P.init then Proc(RUNNABLE, None, None, false, ForkRet) else FREED)
    && (forall c | 0 <= c < |s.cpus| :: s.cpus[c] == Cpu(None, Sched))
    && s.locks == map[] && s.sl == map[] && s.ops == {} && s.lhn == 0 && s.commit == NoCommit
  }

  datatype Trace = Start | Then(before: Trace, e: Event)

  /** The run tr from boot ends in s. */
  ghost predicate Reached(P: Params, tr: Trace, s: State)
    decreases tr
  {
    match tr
    case Start => Boot(P, s)
    case Then(before, e) => exists s1 :: Reached(P, before, s1) && Enabled(P, s1, e) && s == Next(P, s1, e)
  }

  lemma BootInv(P: Params, s: State)
    requires Boot(P, s)
    ensures Inv(P, s)
  {
    assert forall p | 0 <= p < |s.procs| :: StateOk(s, p);
  }

  lemma {:induction false} RunInv(P: Params, tr: Trace, s: State)
    requires Reached(P, tr, s)
    ensures Inv(P, s)
  {
    match tr
    case Start => BootInv(P, s);
    case Then(before, e) =>
      var s1 :| Reached(P, before, s1) && Enabled(P, s1, e) && s == Next(P, s1, e);
      RunInv(P, before, s1);
      StepKeeps(P, s1, e);
  }

  // ---------------------------------------------------------------------------------------
  // No lost wakeups.

  /** A thread in wakeup(ch) means the channel's lock is held. */
  lemma NoWakerIfFree(P: Params, s: State, ch: Chan, p: nat)
    requires Inv(P, s) && Free(s, LockFor(ch))
    ensures !Waker(s, ch, p)
  {
    if Waker(s, ch, p) {
      var r :| 0 <= r < |s.procs| && WakesAt(s.procs[r].pc, ch, p);
      var c := WakerHolds(P, s, r);
      Mutex(s, c, c, LockFor(ch));
    }
  }

  lemma AsleepIsBlocked(P: Params, s: State, p: nat, ch: Chan)
    requires Inv(P, s) && p < |s.procs| && s.procs[p].state == SLEEPING && s.procs[p].chan == Some(ch)
    requires Free(s, LockFor(ch))
    ensures Blocked(P, s, ch) && s.procs[p].pc.SleepBack? && ch == s.procs[p].pc.at.Chan(p)
  {
    assert StateOk(s, p) && WakeOk(P, s, p);
    NoWakerIfFree(P, s, ch, p);
  }

  /** acquiresleep: with lk->lk free, a process asleep on the sleep-lock implies that a process
      which is alive holds the lock, and will wake it in releasesleep. */
  lemma SleepLockNotLost(P: Params, tr: Trace, s: State, p: nat, i: nat)
    requires Reached(P, tr, s) && p < |s.procs| && Free(s, SLock(i))
    requires s.procs[p].state == SLEEPING && s.procs[p].chan == Some(SleepLockChan(i))
    ensures i in s.sl && s.sl[i] < |s.procs| && Alive(s.procs[s.sl[i]])
  {
    RunInv(P, tr, s);
    AsleepIsBlocked(P, s, p, SleepLockChan(i));
  }

  /** begin_op: with log.lock free, a process asleep in it implies a commit in progress, in a process
      that is alive and not itself in begin_op, or a log too full and an operation in progress, in such
      a process. */
  lemma BeginOpNotLost(P: Params, tr: Trace, s: State, p: nat)
    requires Reached(P, tr, s) && p < |s.procs| && Free(s, LogLock) && P.maxOp <= P.logSize
    requires s.procs[p].state == SLEEPING && s.procs[p].chan == Some(LogChan)
    ensures || (!s.commit.NoCommit? && s.commit.p < |s.procs| && Working(s.procs[s.commit.p]))
            || (TooFull(P, s) && exists r :: r in s.ops && r < |s.procs| && Working(s.procs[r]))
  {
    RunInv(P, tr, s);
    AsleepIsBlocked(P, s, p, LogChan);
    if s.commit.NoCommit? {
      assert R.Slots(1, P.maxOp) == P.maxOp + R.Slots(0, P.maxOp);
      assert s.ops != {};
      var r :| r in s.ops;
    }
  }

  /** wait: with wait_lock free, a process asleep in it has no exited child, including children
      handed over by reparent. */
  lemma WaitNotLost(P: Params, tr: Trace, s: State, p: nat)
    requires Reached(P, tr, s) && p < |s.procs| && Free(s, WaitLock)
    requires s.procs[p].state == SLEEPING && s.procs[p].chan == Some(ProcChan(p))
    ensures forall q | 0 <= q < |s.procs| :: !(s.procs[q].parent == Some(p) && s.procs[q].state == ZOMBIE)
  {
    RunInv(P, tr, s);
    AsleepIsBlocked(P, s, p, ProcChan(p));
  }

  /** Processes sleep on their own child channel only. */
  lemma SleepsOnOwnChannel(P: Params, tr: Trace, s: State, p: nat, q: nat)
    requires Reached(P, tr, s) && p < |s.procs| && s.procs[p].state == SLEEPING && s.procs[p].chan == Some(ProcChan(q))
    ensures q == p
  {
    RunInv(P, tr, s);
    assert StateOk(s, p);
  }

  // ---------------------------------------------------------------------------------------
  // CPUs.

  /** With p->lock free, p is RUNNING exactly when one CPU has c->proc == p. */
  lemma CpuExclusive(P: Params, tr: Trace, s: State, p: nat)
    requires Reached(P, tr, s) && p < |s.procs| && Free(s, PLock(p))
    ensures s.procs[p].state == RUNNING <==> exists c :: 0 <= c < |s.cpus| && s.cpus[c].proc == Some(p)
    ensures forall c, d | 0 <= c < |s.cpus| && 0 <= d < |s.cpus| && s.cpus[c].proc == Some(p) &&
            s.cpus[d].proc == Some(p) ::
              c == d
  {
    RunInv(P, tr, s);
    assert StateOk(s, p);
    forall c | 0 <= c < |s.cpus| && s.cpus[c].proc == Some(p)
      ensures s.cpus[c].at == InProc(p) && s.procs[p].state == RUNNING
    {
      assert CpuOk(s, c);
      HeldIsNotFree(s, c, p);
    }
    if s.procs[p].state == RUNNING {
      var c :| 0 <= c < |s.cpus| && s.cpus[c].at == InProc(p);
      assert CpuOk(s, c);
    }
  }

  /** A CPU that has p as its process but is not running it, or runs it after exit, has the lock. */
  lemma HeldIsNotFree(s: State, c: nat, p: nat)
    requires CpuInv(s) && LockInv(s) && StateInv(s) && c < |s.cpus| && p < |s.procs| && s.cpus[c].proc == Some(p)
    requires Free(s, PLock(p))
    ensures s.cpus[c].at == InProc(p) && s.procs[p].state == RUNNING
  {
    assert CpuOk(s, c) && StateOk(s, p);
    if PLock(p) in HeldBy(s, c) { Holder(s, c, PLock(p)); }
  }

  /** A process that resumes after swtch finds p->lock held by the CPU it resumes on, and no
      other lock; so does scheduler() when the process switches back. */
  lemma LockHandedOver(P: Params, tr: Trace, s: State, c: nat, p: nat)
    requires Reached(P, tr, s) && c < |s.cpus| && p < |s.procs|
    requires || s.cpus[c].at == SchedBack(p)
             || (s.cpus[c].at == InProc(p) && (s.procs[p].pc.SleepBack? || s.procs[p].pc.YieldBack? ||
                  s.procs[p].pc.ForkRet?))
    ensures PLock(p) in s.locks && s.locks[PLock(p)] == c
    ensures forall l | l in s.locks && s.locks[l] == c :: l == PLock(p)
  {
    RunInv(P, tr, s);
    assert HeldBy(s, c) == {PLock(p)};
    Holder(s, c, PLock(p));
  }

  /** sched() is only reached holding p->lock alone, so its first two panics do not fire. */
  lemma SchedHoldsOneLock(P: Params, tr: Trace, s: State, c: nat, p: nat)
    requires Reached(P, tr, s) && c < |s.cpus| && s.cpus[c].at == InProc(p) && p < |s.procs|
    requires s.procs[p].pc.YieldLocked? || s.procs[p].pc.SleepOnly? || s.procs[p].pc.ExitSched?
    ensures PLock(p) in s.locks && s.locks[PLock(p)] == c
    ensures forall l | l in s.locks && s.locks[l] == c :: l == PLock(p)
  {
    RunInv(P, tr, s);
    assert HeldBy(s, c) == {PLock(p)};
    Holder(s, c, PLock(p));
  }

  lemma BackIsOffCpu(s: State, c: nat, p: nat)
    requires CpuInv(s) && c < |s.cpus| && s.cpus[c].at == SchedBack(p)
    ensures !OnCpu(s, p)
  {
    assert CpuOk(s, c);
    forall d | 0 <= d < |s.cpus| ensures s.cpus[d].at != InProc(p) {
      assert CpuOk(s, d);
    }
  }

  /** Back in scheduler(), the process is no longer RUNNING ("sched running" does not fire). */
  lemma BackIsNotRunning(P: Params, tr: Trace, s: State, c: nat, p: nat)
    requires Reached(P, tr, s) && c < |s.cpus| && p < |s.procs| && s.cpus[c].at == SchedBack(p)
    ensures s.procs[p].state != RUNNING
  {
    RunInv(P, tr, s);
    BackIsOffCpu(s, c, p);
    assert StateOk(s, p);
  }

  /** wait() frees a child only once it is off its CPU for good. */
  lemma ReapedIsOffCpu(P: Params, tr: Trace, s: State, c: nat, p: nat, j: nat)
    requires Reached(P, tr, s) && AtPc(s, c, p, WaitChild(j)) && j < |s.procs| && s.procs[j].state == ZOMBIE
    ensures s.procs[j].pc == Gone && s.procs[j].parent == Some(p)
    ensures forall d | 0 <= d < |s.cpus| :: s.cpus[d].proc != Some(j) && s.cpus[d].at != InProc(j)
  {
    RunInv(P, tr, s);
    ZombieIsOff(P, s, c, p, j);
    assert StateOk(s, j) && ScanKidsOk(s, p);
  }

  /** No process has an exited or unused parent, at any time. */
  lemma ParentsLive(P: Params, tr: Trace, s: State, q: nat, r: nat)
    requires Reached(P, tr, s) && q < |s.procs| && s.procs[q].parent == Some(r)
    ensures r < |s.procs| && s.procs[r].state != ZOMBIE && s.procs[r].state != UNUSED
  {
    RunInv(P, tr, s);
    assert KidOk(s, q) && StateOk(s, r);
  }

  /** end_op never finds a commit in progress. */
  lemma EndOpDoesNotPanic(P: Params, tr: Trace, s: State, p: nat)
    requires Reached(P, tr, s) && p < |s.procs| && s.procs[p].pc == EndDec
    ensures s.commit == NoCommit && p in s.ops
  {
    RunInv(P, tr, s);
  }

  // ---------------------------------------------------------------------------------------
  // Spinning.

  /** The lock the thread on c is spinning for, if any. */
  function Wants(s: State, c: nat): Option<LockId>
    requires c < |s.cpus|
  {
    if !s.cpus[c].at.InProc? || s.cpus[c].at.p >= |s.procs| then None else
      var p := s.cpus[c].at.p;
      match s.procs[p].pc
      case SleepEnter(_) => Some(PLock(p))
      case SleepReacquire(at) => Some(at.Lock())
      case Wake(_, idx, _) => if idx < |s.procs| && idx != p then Some(PLock(idx)) else None
      case WaitScan(j, _) =>
        if j >= |s.procs| then Some(PLock(p))
        else if s.procs[j].parent == Some(p) then Some(PLock(j)) else None
      case ExitLock => Some(PLock(p))
      case ForkScan(j) => if j < |s.procs| then Some(PLock(j)) else None
      case ForkParent(_) => Some(WaitLock)
      case ForkRun(np) => Some(PLock(np))
      case _ => None
  }

  /** A CPU that holds a process's lock spins for nothing. */
  lemma ProcLockHolderRuns(s: State, c: nat, q: nat)
    requires c < |s.cpus| && PLock(q) in HeldBy(s, c)
    ensures Wants(s, c) == None
  {
  }

  /** Whoever spins holds no process lock, and spins for one if it holds any lock. */
  lemma SpinOrder(s: State, c: nat, l: LockId)
    requires c < |s.cpus| && l in HeldBy(s, c) && Wants(s, c).Some?
    ensures Wants(s, c).value.PLock? && !l.PLock?
  {
  }

  /** Spinning cannot deadlock: no CPU spins for a lock it holds itself, and a chain of CPUs
      spinning for each other's locks ends, after at most one more link, at a CPU that is not
      spinning. */
  lemma SpinningEnds(P: Params, tr: Trace, s: State, c: nat)
    requires Reached(P, tr, s) && c < |s.cpus| && Wants(s, c).Some? && Wants(s, c).value in s.locks
    ensures var d := s.locks[Wants(s, c).value];
            && d < |s.cpus| && d != c
            && (Wants(s, d).Some? && Wants(s, d).value in s.locks ==>
                  var e := s.locks[Wants(s, d).value]; e < |s.cpus| && Wants(s, e) == None)
  {
    RunInv(P, tr, s);
    SpinChain(s, c);
  }

  lemma SpinChain(s: State, c: nat)
    requires LockInv(s) && c < |s.cpus| && Wants(s, c).Some? && Wants(s, c).value in s.locks
    ensures var d := s.locks[Wants(s, c).value];
            && d < |s.cpus| && d != c
            && (Wants(s, d).Some? && Wants(s, d).value in s.locks ==>
                  var e := s.locks[Wants(s, d).value]; e < |s.cpus| && Wants(s, e) == None)
  {
    var l := Wants(s, c).value;
    var d := s.locks[l];
    assert l in HeldBy(s, d);
    if d == c { SpinOrder(s, c, l); }
    if Wants(s, d).Some? && Wants(s, d).value in s.locks {
      var l' := Wants(s, d).value;
      SpinOrder(s, d, l);
      assert l' in HeldBy(s, s.locks[l']);
      ProcLockHolderRuns(s, s.locks[l'], l'.p);
    }
  }
}
