/** The invariant of the process protocol. */
module ProcInvariant {
  import opened Common
  import opened ProcProtocol

  /** Some CPU is executing p. */
  ghost predicate OnCpu(s: State, p: nat) {
    exists c :: 0 <= c < |s.cpus| && s.cpus[c].at == InProc(p)
  }

  // ---------------------------------------------------------------------------------------
  // CPUs and locks.

  predicate CpuOk(s: State, c: nat)
    requires c < |s.cpus|
  {
    match s.cpus[c].at
    case Sched => s.cpus[c].proc == None
    case SchedHold(p) => s.cpus[c].proc == None && p < |s.procs|
    case InProc(p) => s.cpus[c].proc == Some(p) && p < |s.procs|
    case SchedBack(p) => s.cpus[c].proc == Some(p) && p < |s.procs|
  }

  ghost predicate CpuInv(s: State) {
    && (forall c | 0 <= c < |s.cpus| :: CpuOk(s, c))
    && (forall c, c' | 0 <= c < |s.cpus| && 0 <= c' < |s.cpus| && c != c' && s.cpus[c].proc.Some? ::
          s.cpus[c].proc != s.cpus[c'].proc)
  }

  /** The lock table says exactly what control points say. */
  ghost predicate LockInv(s: State) {
    && (forall l | l in s.locks :: s.locks[l] < |s.cpus| && l in HeldBy(s, s.locks[l]))
    && (forall c, l | 0 <= c < |s.cpus| && l in HeldBy(s, c) :: l in s.locks && s.locks[l] == c)
  }

  // ---------------------------------------------------------------------------------------
  // Process states and control points.

  predicate Exited(pc: PC) { pc.ExitZombie? || pc.ExitSched? || pc.Gone? }

  predicate Parked(q: Proc, p: nat) {
    match q.state
    case UNUSED => q.pc == Fresh && q.parent == None
    case USED => q.pc == ForkRet
    case SLEEPING => q.pc.SleepBack? && q.chan == Some(q.pc.at.Chan(p))
    case RUNNABLE => q.pc.ForkRet? || q.pc.YieldBack? || q.pc.SleepBack?
    case RUNNING => false
    case ZOMBIE => q.pc == Gone
  }

  ghost predicate StateOk(s: State, p: nat)
    requires p < |s.procs|
  {
    var q := s.procs[p];
    if OnCpu(s, p) then q.pc != Fresh && q.pc != Gone && q.state == (if Exited(q.pc) then ZOMBIE else RUNNING)
    else Parked(q, p)
  }

  ghost predicate StateInv(s: State) {
    forall p | 0 <= p < |s.procs| :: StateOk(s, p)
  }

  // ---------------------------------------------------------------------------------------
  // Sleeping and waking.

  /** The lock that guards a channel's condition. */
  function LockFor(ch: Chan): LockId {
    match ch
    case SleepLockChan(i) => SLock(i)
    case LogChan => LogLock
    case ProcChan(_) => WaitLock
  }

  /** The channel a process sleeps on, or has decided to sleep on. */
  function SleepChan(q: Proc, p: nat): Option<Chan> {
    match q.pc
    case SleepEnter(at) => Some(at.Chan(p))
    case SleepBoth(at) => Some(at.Chan(p))
    case SleepOnly(at) => Some(at.Chan(p))
    case SleepBack(at) => if q.state == SLEEPING then Some(at.Chan(p)) else None
    case _ => None
  }

  /** The condition a sleeper on ch waits out. */
  ghost predicate Blocked(P: Params, s: State, ch: Chan) {
    match ch
    case SleepLockChan(i) => i in s.sl
    case LogChan => !s.commit.NoCommit? || TooFull(P, s)
    case ProcChan(p) => forall q | 0 <= q < |s.procs| :: !(s.procs[q].parent == Some(p) && s.procs[q].state == ZOMBIE)
  }

  predicate WakesAt(pc: PC, ch: Chan, p: nat) {
    pc.Wake? && pc.ch == ch && pc.idx <= p
  }

  /** Some thread is in wakeup(ch) and has yet to come to p. */
  ghost predicate Waker(s: State, ch: Chan, p: nat) {
    exists r :: 0 <= r < |s.procs| && WakesAt(s.procs[r].pc, ch, p)
  }

  ghost predicate WakeOk(P: Params, s: State, p: nat)
    requires p < |s.procs|
  {
    var ch := SleepChan(s.procs[p], p);
    ch.Some? ==> Blocked(P, s, ch.value) || Waker(s, ch.value, p)
  }

  /** No wakeup is lost. */
  ghost predicate WakeInv(P: Params, s: State) {
    forall p | 0 <= p < |s.procs| :: WakeOk(P, s, p)
  }

  /** wakeup's channel is the one its caller means, and nobody it has passed sleeps on it. */
  ghost predicate ScanOk(P: Params, s: State, r: nat)
    requires r < |s.procs|
  {
    var pc := s.procs[r].pc;
    pc.Wake? ==>
      && LockFor(pc.ch) == pc.k.Lock()
      && (pc.k.AfterReparent? ==> pc.ch == ProcChan(P.init))
      && (pc.k.AfterExit? ==> pc.ch.ProcChan? && s.procs[r].parent == Some(pc.ch.p))
      && (forall p | 0 <= p < |s.procs| && p < pc.idx :: SleepChan(s.procs[p], p) != Some(pc.ch))
  }

  ghost predicate ScanInv(P: Params, s: State) {
    forall r | 0 <= r < |s.procs| :: ScanOk(P, s, r)
  }

  // ---------------------------------------------------------------------------------------
  // Parents and children.

  /** May process q still be a child of a process at pc? */
  predicate KidAllowed(pc: PC, q: nat) {
    match pc
    case ExitReparent(j) => j <= q
    case Wake(_, _, AfterReparent(j)) => j <= q
    case Wake(_, _, AfterExit) => false
    case ExitLock => false
    case ExitBoth => false
    case ExitZombie => false
    case ExitSched => false
    case Gone => false
    case _ => true
  }

  predicate Exiting(pc: PC) {
    || pc.ExitReparent? || pc.ExitLock? || pc.ExitBoth? || pc.ExitZombie? || pc.ExitSched? || pc.Gone?
    || (pc.Wake? && (pc.k.AfterReparent? || pc.k.AfterExit?))
  }

  predicate Alive(q: Proc) {
    (q.state == SLEEPING || q.state == RUNNABLE || q.state == RUNNING) && !Exiting(q.pc)
  }

  ghost predicate KidOk(s: State, q: nat)
    requires q < |s.procs|
  {
    var r := s.procs[q].parent;
    r.Some? ==>
      && r.value < |s.procs|
      && s.procs[r.value].state != UNUSED && s.procs[r.value].state != USED
      && KidAllowed(s.procs[r.value].pc, q)
  }

  ghost predicate KidInv(P: Params, s: State) {
    && P.init < |s.procs| && Alive(s.procs[P.init])
    && forall q | 0 <= q < |s.procs| :: KidOk(s, q)
  }

  /** Once exit() has woken the parent, the parent is not asleep in wait(). */
  ghost predicate ExitOk(s: State, r: nat)
    requires r < |s.procs|
  {
    var q := s.procs[r];
    (q.pc.ExitLock? || q.pc.ExitBoth?) && q.parent.Some? && q.parent.value < |s.procs|
    ==> SleepChan(s.procs[q.parent.value], q.parent.value) != Some(ProcChan(q.parent.value))
  }

  ghost predicate ExitInv(s: State) {
    forall r | 0 <= r < |s.procs| :: ExitOk(s, r)
  }

  ghost predicate NoZombieBelow(s: State, p: nat, j: nat) {
    forall q | 0 <= q < |s.procs| && q < j :: !(s.procs[q].parent == Some(p) && s.procs[q].state == ZOMBIE)
  }

  /** wait()'s scan has met no exited child so far. */
  ghost predicate ScanKidsOk(s: State, p: nat)
    requires p < |s.procs|
  {
    match s.procs[p].pc
    case WaitScan(j, _) => NoZombieBelow(s, p, j)
    case WaitChild(j) => j < |s.procs| && s.procs[j].parent == Some(p) && NoZombieBelow(s, p, j)
    case _ => true
  }

  ghost predicate ScanKidsInv(s: State) {
    forall p | 0 <= p < |s.procs| :: ScanKidsOk(s, p)
  }

  // ---------------------------------------------------------------------------------------
  // fork, sleep-lock owners and the log.

  /** The control point a thread is at, or will be back at after a yield. */
  function Resume(pc: PC): PC { if pc.YieldLocked? || pc.YieldBack? then pc.spot.Pc() else pc }

  predicate Forks(pc: PC) { Resume(pc).ForkHold? || Resume(pc).ForkParent? || Resume(pc).ForkRun? }

  predicate ForksNp(pc: PC, np: nat) { Forks(pc) && Resume(pc).np == np }

  ghost predicate ForkOk(s: State, p: nat)
    requires p < |s.procs|
  {
    var pc := s.procs[p].pc;
    Forks(pc) ==>
      && Resume(pc).np < |s.procs| && s.procs[Resume(pc).np].state == USED
      && (!Resume(pc).ForkRun? ==> s.procs[Resume(pc).np].parent == None)
      && (forall r | 0 <= r < |s.procs| && r != p :: !ForksNp(s.procs[r].pc, Resume(pc).np))
  }

  ghost predicate ForkInv(s: State) {
    forall p | 0 <= p < |s.procs| :: ForkOk(s, p)
  }

  ghost predicate OwnerInv(s: State) {
    && (forall i | i in s.sl :: s.sl[i] < |s.procs| && Alive(s.procs[s.sl[i]]))
    && (forall p | 0 <= p < |s.procs| && s.procs[p].pc.RelClear? ::
          s.procs[p].pc.i in s.sl && s.sl[s.procs[p].pc.i] == p)
  }

  predicate Begins(pc: PC) {
    || pc.BeginCheck?
    || ((pc.SleepEnter? || pc.SleepBoth? || pc.SleepOnly? || pc.SleepBack?) && pc.at == InBegin)
    || Resume(pc) == SleepReacquire(InBegin)
  }

  /** A process in an operation or in commit() has neither exited nor called begin_op. */
  predicate Working(q: Proc) { Alive(q) && !Begins(q.pc) }

  ghost predicate LogInv(s: State) {
    && (!s.commit.NoCommit? ==> s.ops == {} && s.commit.p < |s.procs| && Working(s.procs[s.commit.p]))
    && (s.ops == {} && !s.commit.Writing? ==> s.lhn == 0)
    && (forall p | p in s.ops :: p < |s.procs| && Working(s.procs[p]))
    && (forall p | 0 <= p < |s.procs| && s.procs[p].pc == CommitFin :: s.commit == Written(p))
    && (forall p | 0 <= p < |s.procs| && s.procs[p].pc == EndDec :: p in s.ops)
  }

  ghost predicate Core(P: Params, s: State) {
    && CpuInv(s) && LockInv(s) && StateInv(s)
    && WakeInv(P, s) && ScanInv(P, s)
    && KidInv(P, s) && ExitInv(s) && ScanKidsInv(s)
    && ForkInv(s) && OwnerInv(s)
  }

  ghost predicate Inv(P: Params, s: State) {
    Core(P, s) && LogInv(s)
  }
}
