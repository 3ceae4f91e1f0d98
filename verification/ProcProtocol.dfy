/**
 Processes, CPUs and locks of kernel/proc.c, kernel/sleeplock.c and kernel/spinlock.c, with
 the parts of kernel/log.c that sleep, as an interleaving of small steps.

 Any number of processes and CPUs take turns.  A process's kernel thread is at a control point
 (`PC`); a step moves one CPU's current thread past one lock operation or one access to shared
 state.  Sections that hold p->lock for another process only to look at and change that
 process's own fields (in wakeup, kill and the end of fork) are single steps taken while the
 lock is free.  A timer interrupt may take the CPU from a thread wherever it holds no spinlock.
 Spinlocks belong to the CPU that took them, as `lk->cpu` records, which is how
 p->lock passes between scheduler() and the process across swtch.
 */
module ProcProtocol {
  import opened Common
  import R = LogReservation

  datatype PState = UNUSED | USED | SLEEPING | RUNNABLE | RUNNING | ZOMBIE

  /** Sleep channels: a sleep-lock, the log, a process waiting for its children. */
  datatype Chan = SleepLockChan(i: nat) | LogChan | ProcChan(p: nat)

  /** Spinlocks: p->lock, wait_lock, log.lock, and the spinlock inside sleep-lock i. */
  datatype LockId = PLock(p: nat) | WaitLock | LogLock | SLock(i: nat)

  /** Who called sleep(). */
  datatype SleepAt = InAcquire(i: nat) | InBegin | InWait {
    function Lock(): LockId {
      match this
      case InAcquire(i) => SLock(i)
      case InBegin => LogLock
      case InWait => WaitLock
    }

    function Chan(p: nat): Chan {
      match this
      case InAcquire(i) => SleepLockChan(i)
      case InBegin => LogChan
      case InWait => ProcChan(p)
    }

    /** Back at the top of the caller's loop, its lock held again. */
    function Retry(): PC {
      match this
      case InAcquire(i) => AcqCheck(i)
      case InBegin => BeginCheck
      case InWait => WaitScan(0, false)
    }
  }

  /** Who called wakeup(). */
  datatype WakeAt = AfterRelease(i: nat) | AfterEnd | AfterCommit | AfterReparent(j: nat) | AfterExit {
    function Lock(): LockId {
      match this
      case AfterRelease(i) => SLock(i)
      case AfterEnd => LogLock
      case AfterCommit => LogLock
      case _ => WaitLock
    }
  }

  /** Where a thread that holds no spinlock may be when a timer interrupt takes its CPU. */
  datatype Spot = AtIdle | AtReacquire(at: SleepAt) | AtForkScan(j: nat) | AtForkParent(np: nat) | AtForkRun(np: nat) {
    function Pc(): PC {
      match this
      case AtIdle => Idle
      case AtReacquire(at) => SleepReacquire(at)
      case AtForkScan(j) => ForkScan(j)
      case AtForkParent(np) => ForkParent(np)
      case AtForkRun(np) => ForkRun(np)
    }
  }

  datatype PC =
    | Fresh                              // no thread
    | Gone                               // exited, will never be switched to
    | ForkRet                            // first switched to, p->lock held
    | Idle                               // user code, or kernel code holding no lock of this model
    | YieldLocked(spot: Spot) | YieldBack(spot: Spot)
    | SleepEnter(at: SleepAt)            // in sleep(), lk held
    | SleepBoth(at: SleepAt)             // lk and p->lock held
    | SleepOnly(at: SleepAt)             // lk released
    | SleepBack(at: SleepAt)             // in or after sched(), p->lock held once running
    | SleepReacquire(at: SleepAt)
    | AcqCheck(i: nat)                   // acquiresleep's loop test
    | RelClear(i: nat)                   // releasesleep, lk->lk held
    | Wake(ch: Chan, idx: nat, k: WakeAt) // wakeup(ch), processes below idx done
    | BeginCheck
    | EndDec                             // end_op, log.lock held
    | CommitFin                          // end_op after commit(), log.lock held
    | WaitScan(j: nat, kids: bool) | WaitChild(j: nat) | WaitDone
    | ExitReparent(j: nat) | ExitLock | ExitBoth | ExitZombie | ExitSched
    | ForkScan(j: nat) | ForkHold(np: nat) | ForkParent(np: nat) | ForkRun(np: nat)

  datatype Proc = Proc(state: PState, chan: Option<Chan>, parent: Option<nat>, killed: bool, pc: PC)

  /** What a CPU is executing: scheduler() between processes, scheduler() holding a candidate's
      lock, a process, or scheduler() just switched back to. */
  datatype At = Sched | SchedHold(p: nat) | InProc(p: nat) | SchedBack(p: nat)

  /** c->proc and where the CPU is. */
  datatype Cpu = Cpu(proc: Option<nat>, at: At)

  /** log.committing, and who is in commit(): before or after it has set log.lh.n to 0. */
  datatype Commit = NoCommit | Writing(p: nat) | Written(p: nat)

  datatype State = State(
    procs: seq<Proc>,
    cpus: seq<Cpu>,
    locks: map<LockId, nat>,   // held spinlocks and the CPU holding each
    sl: map<nat, nat>,         // locked sleep-locks and the process holding each
    ops: set<nat>,             // processes between begin_op and end_op: log.outstanding
    lhn: nat,                  // log.lh.n
    commit: Commit)

  /** initproc, MAXOPBLOCKS, LOGSIZE. */
  datatype Params = Params(init: nat, maxOp: nat, logSize: nat)

  // ---------------------------------------------------------------------------------------
  // Locks held at each control point.

  function Held(pc: PC, p: nat): set<LockId> {
    match pc
    case ForkRet => {PLock(p)}
    case YieldLocked(_) => {PLock(p)}
    case YieldBack(_) => {PLock(p)}
    case SleepEnter(at) => {at.Lock()}
    case SleepBoth(at) => {at.Lock(), PLock(p)}
    case SleepOnly(_) => {PLock(p)}
    case SleepBack(_) => {PLock(p)}
    case AcqCheck(i) => {SLock(i)}
    case RelClear(i) => {SLock(i)}
    case Wake(_, _, k) => {k.Lock()}
    case BeginCheck => {LogLock}
    case EndDec => {LogLock}
    case CommitFin => {LogLock}
    case WaitScan(_, _) => {WaitLock}
    case WaitChild(j) => {WaitLock, PLock(j)}
    case WaitDone => {WaitLock}
    case ExitReparent(_) => {WaitLock}
    case ExitLock => {WaitLock}
    case ExitBoth => {WaitLock, PLock(p)}
    case ExitZombie => {WaitLock, PLock(p)}
    case ExitSched => {PLock(p)}
    case ForkHold(np) => {PLock(np)}
    case _ => {}
  }

  function HeldBy(s: State, c: nat): set<LockId>
    requires c < |s.cpus|
  {
    match s.cpus[c].at
    case Sched => {}
    case SchedHold(p) => {PLock(p)}
    case SchedBack(p) => {PLock(p)}
    case InProc(p) => if p < |s.procs| then Held(s.procs[p].pc, p) else {}
  }

  // ---------------------------------------------------------------------------------------
  // Steps.

  datatype Event =
    | SchedAcquire(c: nat, p: nat)
    | SchedRun(c: nat)
    | SchedSkip(c: nat)
    | SchedReturn(c: nat)
    | Yield(c: nat)
    | AcquireSleep(c: nat, i: nat)
    | ReleaseSleep(c: nat, i: nat)
    | BeginOp(c: nat)
    | LogAppend(c: nat)
    | EndOp(c: nat)
    | CommitWrite(c: nat)         // commit() has copied and installed the blocks
    | CommitEnd(c: nat)           // commit() returns to end_op
    | Wait(c: nat)
    | Exit(c: nat)
    | Fork(c: nat)
    | Kill(c: nat, j: nat)
    | Continue(c: nat, ok: bool)  // the thread's next step; ok resolves allocations and copyout

  /** log.lh.n + (outstanding + 1) * MAXOPBLOCKS > LOGSIZE, the product as a sum. */
  predicate TooFull(P: Params, s: State) {
    s.lhn + R.Slots(|s.ops| + 1, P.maxOp) > P.logSize
  }

  predicate InCommit(s: State, p: nat) { !s.commit.NoCommit? && s.commit.p == p }

  predicate Free(s: State, l: LockId) { l !in s.locks }

  function Acq(s: State, c: nat, l: LockId): State { s.(locks := s.locks[l := c]) }

  function Rel(s: State, l: LockId): State { s.(locks := s.locks - {l}) }

  function Goto(s: State, p: nat, pc: PC): State
    requires p < |s.procs|
  {
    s.(procs := s.procs[p := s.procs[p].(pc := pc)])
  }

  /** wakeup's body for one process. */
  function Woken(q: Proc, ch: Chan): Proc {
    if q.state == SLEEPING && q.chan == Some(ch) then q.(state := RUNNABLE) else q
  }

  const FREED := Proc(UNUSED, None, None, false, Fresh)

  predicate Running(s: State, c: nat) {
    c < |s.cpus| && s.cpus[c].at.InProc? && s.cpus[c].at.p < |s.procs|
  }

  predicate IdleOn(s: State, c: nat) {
    Running(s, c) && s.procs[s.cpus[c].at.p].pc == Idle
  }

  /** A thread in commit() takes and releases buffers' sleep-locks, and makes none of the other calls. */
  predicate CallsOn(s: State, c: nat) {
    IdleOn(s, c) && !InCommit(s, s.cpus[c].at.p)
  }

  /** The thread on c holds no spinlock: a timer interrupt may make it yield. */
  predicate Preemptible(pc: PC) { pc.Idle? || pc.SleepReacquire? || pc.ForkScan? || pc.ForkParent? || pc.ForkRun? }

  function SpotOf(pc: PC): (k: Spot)
    requires Preemptible(pc)
    ensures k.Pc() == pc
  {
    match pc
    case Idle => AtIdle
    case SleepReacquire(at) => AtReacquire(at)
    case ForkScan(j) => AtForkScan(j)
    case ForkParent(np) => AtForkParent(np)
    case ForkRun(np) => AtForkRun(np)
  }

  /** Can the thread on c take its next step (the locks it wants are free)? */
  predicate CanContinue(s: State, c: nat)
    requires Running(s, c)
  {
    var p := s.cpus[c].at.p;
    match s.procs[p].pc
    case ForkRet => true
    case YieldLocked(_) => true
    case YieldBack(_) => true
    case SleepEnter(_) => Free(s, PLock(p))
    case SleepBoth(_) => true
    case SleepOnly(_) => true
    case SleepBack(_) => true
    case SleepReacquire(at) => Free(s, at.Lock())
    case AcqCheck(_) => true
    case RelClear(_) => true
    case Wake(_, idx, _) => idx < |s.procs| && idx != p ==> Free(s, PLock(idx))
    case BeginCheck => true
    case EndDec => true
    case CommitFin => true
    case WaitScan(j, _) =>
      if j < |s.procs| then s.procs[j].parent == Some(p) ==> Free(s, PLock(j)) else Free(s, PLock(p))
    case WaitChild(j) => j < |s.procs|
    case WaitDone => true
    case ExitReparent(_) => true
    case ExitLock => Free(s, PLock(p))
    case ExitBoth => true
    case ExitZombie => true
    case ExitSched => true
    case ForkScan(j) => j < |s.procs| ==> Free(s, PLock(j))
    case ForkHold(np) => np < |s.procs|
    case ForkParent(np) => np < |s.procs| && Free(s, WaitLock)
    case ForkRun(np) => np < |s.procs| && Free(s, PLock(np))
    case _ => false
  }

  predicate Enabled(P: Params, s: State, e: Event) {
    match e
    case SchedAcquire(c, p) => c < |s.cpus| && p < |s.procs| && s.cpus[c].at == Sched && Free(s, PLock(p))
    case SchedRun(c) =>
      && c < |s.cpus| && s.cpus[c].at.SchedHold? && s.cpus[c].at.p < |s.procs|
      && s.procs[s.cpus[c].at.p].state == RUNNABLE
    case SchedSkip(c) =>
      && c < |s.cpus| && s.cpus[c].at.SchedHold? && s.cpus[c].at.p < |s.procs|
      && s.procs[s.cpus[c].at.p].state != RUNNABLE
    case SchedReturn(c) => c < |s.cpus| && s.cpus[c].at.SchedBack?
    case Yield(c) => Running(s, c) && Preemptible(s.procs[s.cpus[c].at.p].pc) && Free(s, PLock(s.cpus[c].at.p))
    case AcquireSleep(c, i) => IdleOn(s, c) && Free(s, SLock(i))
    case ReleaseSleep(c, i) => IdleOn(s, c) && Free(s, SLock(i)) && i in s.sl && s.sl[i] == s.cpus[c].at.p
    case BeginOp(c) => CallsOn(s, c) && Free(s, LogLock) && s.cpus[c].at.p !in s.ops
    case LogAppend(c) => IdleOn(s, c) && Free(s, LogLock) && s.cpus[c].at.p in s.ops
    case EndOp(c) => IdleOn(s, c) && Free(s, LogLock) && s.cpus[c].at.p in s.ops
    case CommitWrite(c) => IdleOn(s, c) && s.commit == Writing(s.cpus[c].at.p)
    case CommitEnd(c) => IdleOn(s, c) && Free(s, LogLock) && s.commit == Written(s.cpus[c].at.p)
    case Wait(c) => CallsOn(s, c) && Free(s, WaitLock)
    case Exit(c) =>
      && CallsOn(s, c) && Free(s, WaitLock) && s.cpus[c].at.p != P.init && s.cpus[c].at.p !in s.ops
      && (forall i | i in s.sl :: s.sl[i] != s.cpus[c].at.p)
    case Fork(c) => CallsOn(s, c)
    case Kill(c, j) => CallsOn(s, c) && j < |s.procs| && Free(s, PLock(j))
    case Continue(c, _) => Running(s, c) && CanContinue(s, c)
  }

  /** The thread of p switches to the scheduler of c. */
  function ToSched(s: State, c: nat, p: nat, pc: PC): State
    requires c < |s.cpus| && p < |s.procs|
  {
    Goto(s, p, pc).(cpus := s.cpus[c := s.cpus[c].(at := SchedBack(p))])
  }

  /** wakeup returns to its caller. */
  function AfterWake(s: State, p: nat, k: WakeAt): State
    requires p < |s.procs|
  {
    match k
    case AfterReparent(j) => Goto(s, p, ExitReparent(j))
    case AfterExit => Goto(s, p, ExitLock)
    case _ => Goto(Rel(s, k.Lock()), p, Idle)
  }

  /** The next step of the thread of p on c. */
  function Advance(P: Params, s: State, c: nat, ok: bool): State
    requires Running(s, c) && CanContinue(s, c)
  {
    var p := s.cpus[c].at.p;
    var me := s.procs[p];
    var n := |s.procs|;
    match me.pc
    case ForkRet => Goto(Rel(s, PLock(p)), p, Idle)
    // yield
    case YieldLocked(k) => ToSched(s.(procs := s.procs[p := me.(state := RUNNABLE)]), c, p, YieldBack(k))
    case YieldBack(k) => Goto(Rel(s, PLock(p)), p, k.Pc())
    // sleep
    case SleepEnter(at) => Goto(Acq(s, c, PLock(p)), p, SleepBoth(at))
    case SleepBoth(at) => Goto(Rel(s, at.Lock()), p, SleepOnly(at))
    case SleepOnly(at) =>
      ToSched(s.(procs := s.procs[p := me.(chan := Some(at.Chan(p)), state := SLEEPING)]), c, p, SleepBack(at))
    case SleepBack(at) =>
      Goto(Rel(s.(procs := s.procs[p := me.(chan := None)]), PLock(p)), p, SleepReacquire(at))
    case SleepReacquire(at) => Goto(Acq(s, c, at.Lock()), p, at.Retry())
    // acquiresleep, releasesleep
    case AcqCheck(i) =>
      if i in s.sl then Goto(s, p, SleepEnter(InAcquire(i)))
      else Goto(Rel(s, SLock(i)), p, Idle).(sl := s.sl[i := p])
    case RelClear(i) => Goto(s, p, Wake(SleepLockChan(i), 0, AfterRelease(i))).(sl := s.sl - {i})
    // wakeup
    case Wake(ch, idx, k) =>
      if idx >= n then AfterWake(s, p, k)
      else if idx == p then Goto(s, p, Wake(ch, idx + 1, k))
      else Goto(s.(procs := s.procs[idx := Woken(s.procs[idx], ch)]), p, Wake(ch, idx + 1, k))
    // begin_op, end_op
    case BeginCheck =>
      if !s.commit.NoCommit? || TooFull(P, s) then Goto(s, p, SleepEnter(InBegin))
      else Goto(Rel(s, LogLock), p, Idle).(ops := s.ops + {p})
    case EndDec =>
      if |s.ops - {p}| == 0
      then Goto(Rel(s, LogLock), p, Idle).(ops := s.ops - {p}, commit := Writing(p))
      else Goto(s, p, Wake(LogChan, 0, AfterEnd)).(ops := s.ops - {p})
    case CommitFin => Goto(s, p, Wake(LogChan, 0, AfterCommit)).(commit := NoCommit)
    // wait
    case WaitScan(j, kids) =>
      if j < n then
        if s.procs[j].parent == Some(p) then Goto(Acq(s, c, PLock(j)), p, WaitChild(j))
        else Goto(s, p, WaitScan(j + 1, kids))
      else if !kids || me.killed then Goto(s, p, WaitDone)
      else Goto(s, p, SleepEnter(InWait))
    case WaitChild(j) =>
      if s.procs[j].state == ZOMBIE then
        if ok then Goto(Rel(s.(procs := s.procs[j := FREED]), PLock(j)), p, WaitDone)
        else Goto(Rel(s, PLock(j)), p, WaitDone)
      else Goto(Rel(s, PLock(j)), p, WaitScan(j + 1, true))
    case WaitDone => Goto(Rel(s, WaitLock), p, Idle)
    // exit
    case ExitReparent(j) =>
      if j < n then
        if s.procs[j].parent == Some(p)
        then Goto(s.(procs := s.procs[j := s.procs[j].(parent := Some(P.init))]), p,
                  Wake(ProcChan(P.init), 0, AfterReparent(j + 1)))
        else Goto(s, p, ExitReparent(j + 1))
      else if me.parent.Some? then Goto(s, p, Wake(ProcChan(me.parent.value), 0, AfterExit))
      else Goto(s, p, ExitLock)
    case ExitLock => Goto(Acq(s, c, PLock(p)), p, ExitBoth)
    case ExitBoth => Goto(s.(procs := s.procs[p := me.(state := ZOMBIE)]), p, ExitZombie)
    case ExitZombie => Goto(Rel(s, WaitLock), p, ExitSched)
    case ExitSched => ToSched(s, c, p, Gone)
    // fork
    case ForkScan(j) =>
      if j >= n then Goto(s, p, Idle)
      else if s.procs[j].state == UNUSED
      then Goto(Acq(s.(procs := s.procs[j := s.procs[j].(state := USED, pc := ForkRet)]), c, PLock(j)), p, ForkHold(j))
      else Goto(s, p, ForkScan(j + 1))
    case ForkHold(np) =>
      if ok then Goto(Rel(s, PLock(np)), p, ForkParent(np))
      else Goto(Rel(s.(procs := s.procs[np := FREED]), PLock(np)), p, Idle)
    case ForkParent(np) =>
      Goto(s.(procs := s.procs[np := s.procs[np].(parent := Some(p))]), p, ForkRun(np))
    case ForkRun(np) =>
      Goto(s.(procs := s.procs[np := s.procs[np].(state := RUNNABLE)]), p, Idle)
  }

  function Next(P: Params, s: State, e: Event): State
    requires Enabled(P, s, e)
  {
    match e
    case SchedAcquire(c, p) => Acq(s, c, PLock(p)).(cpus := s.cpus[c := s.cpus[c].(at := SchedHold(p))])
    case SchedRun(c) =>
      var p := s.cpus[c].at.p;
      s.(procs := s.procs[p := s.procs[p].(state := RUNNING)], cpus := s.cpus[c := Cpu(Some(p), InProc(p))])
    case SchedSkip(c) => Rel(s, PLock(s.cpus[c].at.p)).(cpus := s.cpus[c := s.cpus[c].(at := Sched)])
    case SchedReturn(c) => Rel(s, PLock(s.cpus[c].at.p)).(cpus := s.cpus[c := Cpu(None, Sched)])
    case Yield(c) => var p := s.cpus[c].at.p; Goto(Acq(s, c, PLock(p)), p, YieldLocked(SpotOf(s.procs[p].pc)))
    case AcquireSleep(c, i) => Goto(Acq(s, c, SLock(i)), s.cpus[c].at.p, AcqCheck(i))
    case ReleaseSleep(c, i) => Goto(Acq(s, c, SLock(i)), s.cpus[c].at.p, RelClear(i))
    case BeginOp(c) => Goto(Acq(s, c, LogLock), s.cpus[c].at.p, BeginCheck)
    case LogAppend(c) => s.(lhn := s.lhn + 1)
    case EndOp(c) => Goto(Acq(s, c, LogLock), s.cpus[c].at.p, EndDec)
    case CommitWrite(c) => s.(lhn := 0, commit := Written(s.cpus[c].at.p))
    case CommitEnd(c) => Goto(Acq(s, c, LogLock), s.cpus[c].at.p, CommitFin)
    case Wait(c) => Goto(Acq(s, c, WaitLock), s.cpus[c].at.p, WaitScan(0, false))
    case Exit(c) => Goto(Acq(s, c, WaitLock), s.cpus[c].at.p, ExitReparent(0))
    case Fork(c) => Goto(s, s.cpus[c].at.p, ForkScan(0))
    case Kill(c, j) =>
      var q := s.procs[j];
      s.(procs := s.procs[j := q.(killed := true, state := if q.state == SLEEPING then RUNNABLE else q.state)])
    case Continue(c, ok) => Advance(P, s, c, ok)
  }
}
