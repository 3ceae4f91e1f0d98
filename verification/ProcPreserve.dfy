/** Every step of the process protocol keeps its invariant. */
module ProcPreserve {
  import opened Common
  import opened ProcProtocol
  import opened ProcInvariant
  import opened ProcSteps
  import R = LogReservation

  // ---------------------------------------------------------------------------------------
  // The log's part of the invariant.

  /** A step that leaves the log alone. */
  lemma LogProcs(s: State, s': State)
    requires LogInv(s) && SameShared(s, s') && |s'.procs| == |s.procs|
    requires forall q | 0 <= q < |s.procs| && (q in s.ops || InCommit(s, q)) :: Working(s'.procs[q])
    requires forall q | 0 <= q < |s.procs| :: s'.procs[q].pc == CommitFin ==> s.commit == Written(q)
    requires forall q | 0 <= q < |s.procs| :: s'.procs[q].pc == EndDec ==> q in s.ops
    ensures LogInv(s')
  {
  }

  ghost predicate LogMoveOk(s: State, p: nat, pc': PC)
    requires p < |s.procs|
  {
    && (p in s.ops || InCommit(s, p) ==> !Begins(pc') && !Exiting(pc'))
    && (pc' == CommitFin ==> s.commit == Written(p))
    && (pc' == EndDec ==> p in s.ops)
  }

  /** A move of one control point. */
  lemma Move(P: Params, s: State, s': State, c: nat, p: nat, pc': PC)
    requires Inv(P, s) && PcMove(s, s', c, p, pc') && MoveOk(P, s, p, pc') && LogMoveOk(s, p, pc')
    requires LockMove(s, s', c, Held(s.procs[p].pc, p), Held(pc', p))
    ensures Inv(P, s')
  {
    PcOnly(P, s, s', c, p, pc');
    LogProcs(s, s');
  }

  lemma AcqIsLockMove(s: State, c: nat, p: nat, pc': PC, l: LockId)
    requires LockInv(s) && c < |s.cpus| && s.cpus[c].at == InProc(p) && p < |s.procs|
    requires Free(s, l) && Held(pc', p) == Held(s.procs[p].pc, p) + {l}
    ensures LockMove(s, Goto(Acq(s, c, l), p, pc'), c, Held(s.procs[p].pc, p), Held(pc', p))
  {
    assert forall x | x in HeldBy(s, c) :: x in s.locks && s.locks[x] == c;
  }

  /** acquire(l), then on to pc'. */
  lemma MoveAcq(P: Params, s: State, c: nat, p: nat, pc': PC, l: LockId)
    requires Inv(P, s) && c < |s.cpus| && s.cpus[c].at == InProc(p) && p < |s.procs|
    requires MoveOk(P, s, p, pc') && LogMoveOk(s, p, pc')
    requires Free(s, l) && Held(pc', p) == Held(s.procs[p].pc, p) + {l}
    ensures Inv(P, Goto(Acq(s, c, l), p, pc'))
  {
    AcqIsLockMove(s, c, p, pc', l);
    Move(P, s, Goto(Acq(s, c, l), p, pc'), c, p, pc');
  }

  lemma RelIsLockMove(s: State, c: nat, p: nat, pc': PC, l: LockId)
    requires LockInv(s) && c < |s.cpus| && s.cpus[c].at == InProc(p) && p < |s.procs|
    requires l in Held(s.procs[p].pc, p) && Held(pc', p) == Held(s.procs[p].pc, p) - {l}
    ensures LockMove(s, Goto(Rel(s, l), p, pc'), c, Held(s.procs[p].pc, p), Held(pc', p))
  {
    assert forall x | x in HeldBy(s, c) :: x in s.locks && s.locks[x] == c;
  }

  /** release(l), then on to pc'. */
  lemma MoveRel(P: Params, s: State, c: nat, p: nat, pc': PC, l: LockId)
    requires Inv(P, s) && c < |s.cpus| && s.cpus[c].at == InProc(p) && p < |s.procs|
    requires MoveOk(P, s, p, pc') && LogMoveOk(s, p, pc')
    requires l in Held(s.procs[p].pc, p) && Held(pc', p) == Held(s.procs[p].pc, p) - {l}
    ensures Inv(P, Goto(Rel(s, l), p, pc'))
  {
    RelIsLockMove(s, c, p, pc', l);
    Move(P, s, Goto(Rel(s, l), p, pc'), c, p, pc');
  }

  lemma SameIsLockMove(s: State, c: nat, p: nat, pc': PC)
    requires LockInv(s) && c < |s.cpus| && s.cpus[c].at == InProc(p) && p < |s.procs|
    requires Held(pc', p) == Held(s.procs[p].pc, p)
    ensures LockMove(s, Goto(s, p, pc'), c, Held(s.procs[p].pc, p), Held(pc', p))
  {
    assert forall x | x in HeldBy(s, c) :: x in s.locks && s.locks[x] == c;
  }

  lemma MoveSame(P: Params, s: State, c: nat, p: nat, pc': PC)
    requires Inv(P, s) && c < |s.cpus| && s.cpus[c].at == InProc(p) && p < |s.procs|
    requires MoveOk(P, s, p, pc') && LogMoveOk(s, p, pc')
    requires Held(pc', p) == Held(s.procs[p].pc, p)
    ensures Inv(P, Goto(s, p, pc'))
  {
    SameIsLockMove(s, c, p, pc');
    Move(P, s, Goto(s, p, pc'), c, p, pc');
  }

  /** Control points that no part of the invariant singles out. */
  predicate Calm(pc: PC) {
    || pc.Idle? || pc.SleepReacquire? || pc.AcqCheck? || pc.BeginCheck?
    || pc.EndDec? || pc.CommitFin? || pc.WaitDone? || pc.ForkScan?
  }

  lemma CalmOk(P: Params, s: State, p: nat, pc': PC)
    requires p < |s.procs| && Calm(pc') && !Exited(s.procs[p].pc)
    requires s.procs[p].pc.Wake? ==> s.procs[p].pc.idx >= |s.procs|
    ensures MoveOk(P, s, p, pc')
  {
  }

  // ---------------------------------------------------------------------------------------
  // Entering the kernel.

  lemma CalmAcq(P: Params, s: State, c: nat, p: nat, pc': PC, l: LockId)
    requires Inv(P, s) && c < |s.cpus| && s.cpus[c].at == InProc(p) && p < |s.procs|
    requires s.procs[p].pc == Idle && Calm(pc') && Free(s, l) && Held(pc', p) == {l}
    requires LogMoveOk(s, p, pc')
    ensures Inv(P, Goto(Acq(s, c, l), p, pc'))
  {
    CalmOk(P, s, p, pc');
    MoveAcq(P, s, c, p, pc', l);
  }

  lemma EnterKeeps(P: Params, s: State, e: Event)
    requires Inv(P, s) && Enabled(P, s, e)
    requires e.AcquireSleep? || e.BeginOp? || e.EndOp? || e.CommitEnd?
    ensures Inv(P, Next(P, s, e))
  {
    var p := s.cpus[e.c].at.p;
    match e
    case AcquireSleep(c, i) => CalmAcq(P, s, c, p, AcqCheck(i), SLock(i));
    case BeginOp(c) => CalmAcq(P, s, c, p, BeginCheck, LogLock);
    case EndOp(c) => CalmAcq(P, s, c, p, EndDec, LogLock);
    case CommitEnd(c) => CalmAcq(P, s, c, p, CommitFin, LogLock);
  }

  /** A yield leaves the thread where it was, to come back to. */
  lemma SpotMove(P: Params, s: State, p: nat, pc': PC)
    requires p < |s.procs| && Resume(pc') == Resume(s.procs[p].pc)
    requires Preemptible(s.procs[p].pc) || Preemptible(pc')
    requires s.procs[p].pc.YieldLocked? || s.procs[p].pc.YieldBack? || pc'.YieldLocked?
    ensures MoveOk(P, s, p, pc') && (LogInv(s) ==> LogMoveOk(s, p, pc'))
  {
  }

  lemma YieldKeeps(P: Params, s: State, c: nat)
    requires Inv(P, s) && Enabled(P, s, Yield(c))
    ensures Inv(P, Next(P, s, Yield(c)))
  {
    var p := s.cpus[c].at.p;
    var pc' := YieldLocked(SpotOf(s.procs[p].pc));
    assert Next(P, s, Yield(c)) == Goto(Acq(s, c, PLock(p)), p, pc');
    YieldMove(P, s, c, p, pc');
  }

  lemma YieldMove(P: Params, s: State, c: nat, p: nat, pc': PC)
    requires Inv(P, s) && c < |s.cpus| && s.cpus[c].at == InProc(p) && p < |s.procs| && Free(s, PLock(p))
    requires Preemptible(s.procs[p].pc) && pc' == YieldLocked(SpotOf(s.procs[p].pc))
    ensures Inv(P, Goto(Acq(s, c, PLock(p)), p, pc'))
  {
    SpotMove(P, s, p, pc');
    MoveAcq(P, s, c, p, pc', PLock(p));
  }

  lemma EnterReleaseKeeps(P: Params, s: State, c: nat, i: nat)
    requires Inv(P, s) && Enabled(P, s, ReleaseSleep(c, i))
    ensures Inv(P, Next(P, s, ReleaseSleep(c, i)))
  {
    MoveAcq(P, s, c, s.cpus[c].at.p, RelClear(i), SLock(i));
  }

  lemma EnterWaitKeeps(P: Params, s: State, c: nat)
    requires Inv(P, s) && Enabled(P, s, Wait(c))
    ensures Inv(P, Next(P, s, Wait(c)))
  {
    MoveAcq(P, s, c, s.cpus[c].at.p, WaitScan(0, false), WaitLock);
  }

  lemma EnterExitKeeps(P: Params, s: State, c: nat)
    requires Inv(P, s) && Enabled(P, s, Exit(c))
    ensures Inv(P, Next(P, s, Exit(c)))
  {
    MoveAcq(P, s, c, s.cpus[c].at.p, ExitReparent(0), WaitLock);
  }

  lemma EnterForkKeeps(P: Params, s: State, c: nat)
    requires Inv(P, s) && Enabled(P, s, Fork(c))
    ensures Inv(P, Next(P, s, Fork(c)))
  {
    CalmOk(P, s, s.cpus[c].at.p, ForkScan(0));
    MoveSame(P, s, c, s.cpus[c].at.p, ForkScan(0));
  }

  // ---------------------------------------------------------------------------------------
  // sleep.

  /** The thread on c is at pc. */
  predicate AtPc(s: State, c: nat, p: nat, pc: PC) {
    c < |s.cpus| && s.cpus[c].at == InProc(p) && p < |s.procs| && s.procs[p].pc == pc
  }

  lemma ResumeKeeps(P: Params, s: State, c: nat, p: nat, ok: bool)
    requires Inv(P, s) && AtPc(s, c, p, ForkRet)
    requires CanContinue(s, c)
    ensures Inv(P, Advance(P, s, c, ok))
  {
    assert Advance(P, s, c, ok) == Goto(Rel(s, PLock(p)), p, Idle);
    CalmOk(P, s, p, Idle);
    MoveRel(P, s, c, p, Idle, PLock(p));
  }

  lemma YieldBackKeeps(P: Params, s: State, c: nat, p: nat, k: Spot, ok: bool)
    requires Inv(P, s) && AtPc(s, c, p, YieldBack(k))
    requires CanContinue(s, c)
    ensures Inv(P, Advance(P, s, c, ok))
  {
    assert Advance(P, s, c, ok) == Goto(Rel(s, PLock(p)), p, k.Pc());
    SpotMove(P, s, p, k.Pc());
    MoveRel(P, s, c, p, k.Pc(), PLock(p));
  }

  lemma SleepEnterKeeps(P: Params, s: State, c: nat, p: nat, at: SleepAt, ok: bool)
    requires Inv(P, s) && AtPc(s, c, p, SleepEnter(at)) && Free(s, PLock(p))
    requires CanContinue(s, c)
    ensures Inv(P, Advance(P, s, c, ok))
  {
    assert Advance(P, s, c, ok) == Goto(Acq(s, c, PLock(p)), p, SleepBoth(at));
    MoveAcq(P, s, c, p, SleepBoth(at), PLock(p));
  }

  lemma SleepBothKeeps(P: Params, s: State, c: nat, p: nat, at: SleepAt, ok: bool)
    requires Inv(P, s) && AtPc(s, c, p, SleepBoth(at))
    requires CanContinue(s, c)
    ensures Inv(P, Advance(P, s, c, ok))
  {
    assert Advance(P, s, c, ok) == Goto(Rel(s, at.Lock()), p, SleepOnly(at));
    MoveRel(P, s, c, p, SleepOnly(at), at.Lock());
  }

  lemma ReacquireKeeps(P: Params, s: State, c: nat, p: nat, at: SleepAt, ok: bool)
    requires Inv(P, s) && AtPc(s, c, p, SleepReacquire(at)) && Free(s, at.Lock())
    requires CanContinue(s, c)
    ensures Inv(P, Advance(P, s, c, ok))
  {
    assert Advance(P, s, c, ok) == Goto(Acq(s, c, at.Lock()), p, at.Retry());
    MoveAcq(P, s, c, p, at.Retry(), at.Lock());
  }

  /** A running thread calls sched() with p->lock alone held. */
  lemma LeaveKeeps(P: Params, s: State, c: nat, p: nat, q': Proc)
    requires Inv(P, s) && c < |s.cpus| && s.cpus[c].at == InProc(p) && p < |s.procs|
    requires s.procs[p].state == RUNNING && Held(s.procs[p].pc, p) == {PLock(p)}
    requires s.procs[p].pc.SleepOnly? || s.procs[p].pc.YieldLocked?
    requires q'.parent == s.procs[p].parent && q'.state != ZOMBIE && Parked(q', p) &&
             !Begins(q'.pc) == !Begins(s.procs[p].pc)
    requires q'.pc.SleepBack? || (q'.pc.YieldBack? && Resume(q'.pc) == Resume(s.procs[p].pc))
    requires SleepChan(q', p).Some? ==> SleepChan(q', p) == SleepChan(s.procs[p], p)
    requires q'.state == SLEEPING || q'.state == RUNNABLE
    ensures Inv(P, s.(procs := s.procs[p := q'], cpus := s.cpus[c := s.cpus[c].(at := SchedBack(p))]))
  {
    var s' := s.(procs := s.procs[p := q'], cpus := s.cpus[c := s.cpus[c].(at := SchedBack(p))]);
    NotForked(s, p);
    ToSchedKeeps(P, s, s', c, p, q');
    LogProcs(s, s');
  }

  /** The sleeper gives up its CPU, on its channel and SLEEPING. */
  lemma SleepOnlyKeeps(P: Params, s: State, c: nat, p: nat, at: SleepAt, ok: bool)
    requires Inv(P, s) && AtPc(s, c, p, SleepOnly(at))
    requires CanContinue(s, c)
    ensures Inv(P, Advance(P, s, c, ok))
  {
    var q' := s.procs[p].(chan := Some(at.Chan(p)), state := SLEEPING, pc := SleepBack(at));
    assert StateOk(s, p);
    LeaveKeeps(P, s, c, p, q');
    assert s.procs[p := q'.(pc := SleepOnly(at))][p := q'] == s.procs[p := q'];
  }

  lemma YieldLockedKeeps(P: Params, s: State, c: nat, p: nat, k: Spot, ok: bool)
    requires Inv(P, s) && AtPc(s, c, p, YieldLocked(k))
    requires CanContinue(s, c)
    ensures Inv(P, Advance(P, s, c, ok))
  {
    var q' := s.procs[p].(state := RUNNABLE, pc := YieldBack(k));
    assert StateOk(s, p);
    LeaveKeeps(P, s, c, p, q');
    assert s.procs[p := q'.(pc := YieldLocked(k))][p := q'] == s.procs[p := q'];
  }

  lemma SleepBackKeeps(P: Params, s: State, c: nat, p: nat, at: SleepAt, ok: bool)
    requires Inv(P, s) && AtPc(s, c, p, SleepBack(at))
    requires CanContinue(s, c)
    ensures Inv(P, Advance(P, s, c, ok))
  {
    var q' := s.procs[p].(chan := None);
    var t := s.(procs := s.procs[p := q']);
    assert StateOk(s, p);
    NotForked(s, p);
    RecordOnly(P, s, t, p, q');
    LogProcs(s, t);
    CalmOk(P, t, p, SleepReacquire(at));
    MoveRel(P, t, c, p, SleepReacquire(at), PLock(p));
  }

  // ---------------------------------------------------------------------------------------
  // acquiresleep, releasesleep, wakeup.

  lemma AcqSleepKeeps(P: Params, s: State, c: nat, p: nat, i: nat, ok: bool)
    requires Inv(P, s) && AtPc(s, c, p, AcqCheck(i)) && i in s.sl
    requires CanContinue(s, c)
    ensures Inv(P, Advance(P, s, c, ok))
  {
    assert Advance(P, s, c, ok) == Goto(s, p, SleepEnter(InAcquire(i)));
    MoveSame(P, s, c, p, SleepEnter(InAcquire(i)));
  }

  /** A live process takes a sleep-lock that is not locked. */
  lemma TakeKeeps(P: Params, s: State, p: nat, i: nat)
    requires Inv(P, s) && i !in s.sl && p < |s.procs| && Alive(s.procs[p])
    requires forall q | 0 <= q < |s.procs| && s.procs[q].pc.RelClear? :: s.procs[q].pc.i != i
    ensures Inv(P, s.(sl := s.sl[i := p]))
  {
    SharedOnly(P, s, s.(sl := s.sl[i := p]));
  }

  lemma AcqTakeKeeps(P: Params, s: State, c: nat, p: nat, i: nat, ok: bool)
    requires Inv(P, s) && AtPc(s, c, p, AcqCheck(i)) && i !in s.sl
    requires CanContinue(s, c)
    ensures Inv(P, Advance(P, s, c, ok))
  {
    assert Advance(P, s, c, ok) == Goto(Rel(s, SLock(i)), p, Idle).(sl := s.sl[i := p]);
    assert StateOk(s, p);
    CalmOk(P, s, p, Idle);
    MoveRel(P, s, c, p, Idle, SLock(i));
    TakeKeeps(P, Goto(Rel(s, SLock(i)), p, Idle), p, i);
  }

  /** Unlocking is safe once a wakeup on the lock has begun. */
  lemma DropKeeps(P: Params, s: State, r: nat, i: nat)
    requires Inv(P, s) && r < |s.procs| && WakesAt(s.procs[r].pc, SleepLockChan(i), 0)
    requires forall q | 0 <= q < |s.procs| && s.procs[q].pc.RelClear? :: s.procs[q].pc.i != i
    ensures Inv(P, s.(sl := s.sl - {i}))
  {
    SharedOnly(P, s, s.(sl := s.sl - {i}));
  }

  lemma RelClearKeeps(P: Params, s: State, c: nat, p: nat, i: nat, ok: bool)
    requires Inv(P, s) && AtPc(s, c, p, RelClear(i))
    requires CanContinue(s, c)
    ensures Inv(P, Advance(P, s, c, ok))
  {
    assert Advance(P, s, c, ok) == Goto(s, p, Wake(SleepLockChan(i), 0, AfterRelease(i))).(sl := s.sl - {i});
    var pc' := Wake(SleepLockChan(i), 0, AfterRelease(i));
    MoveSame(P, s, c, p, pc');
    var t := Goto(s, p, pc');
    forall q | 0 <= q < |t.procs| && t.procs[q].pc.RelClear? ensures t.procs[q].pc.i != i {
      assert q != p && s.procs[q].pc.RelClear?;
    }
    DropKeeps(P, t, p, i);
  }

  lemma WakeEndKeeps(P: Params, s: State, c: nat, p: nat, ch: Chan, idx: nat, k: WakeAt, ok: bool)
    requires Inv(P, s) && AtPc(s, c, p, Wake(ch, idx, k)) && idx >= |s.procs|
    requires CanContinue(s, c)
    ensures Inv(P, Advance(P, s, c, ok))
  {
    assert Advance(P, s, c, ok) == AfterWake(s, p, k);
    if k.AfterReparent? || k.AfterExit? {
      ExitResumesKeeps(P, s, c, p, ch, idx, k);
    } else {
      CalmOk(P, s, p, Idle);
      MoveRel(P, s, c, p, Idle, k.Lock());
    }
  }

  lemma ExitResumesKeeps(P: Params, s: State, c: nat, p: nat, ch: Chan, idx: nat, k: WakeAt)
    requires Inv(P, s) && AtPc(s, c, p, Wake(ch, idx, k)) && idx >= |s.procs| && (k.AfterReparent? || k.AfterExit?)
    ensures Inv(P, Goto(s, p, if k.AfterExit? then ExitLock else ExitReparent(k.j)))
  {
    assert ScanOk(P, s, p);
    MoveSame(P, s, c, p, if k.AfterExit? then ExitLock else ExitReparent(k.j));
  }

  /** Waking or killing another process never hurts. */
  lemma WokenKeeps(P: Params, s: State, j: nat, q': Proc)
    requires Inv(P, s) && j < |s.procs|
    requires q' == s.procs[j].(state := q'.state, killed := q'.killed)
    requires q'.state == s.procs[j].state || (s.procs[j].state == SLEEPING && q'.state == RUNNABLE)
    ensures Inv(P, s.(procs := s.procs[j := q']))
  {
    var s' := s.(procs := s.procs[j := q']);
    assert StateOk(s, j);
    forall p | 0 <= p < |s.procs| && ForksNp(s.procs[p].pc, j)
      ensures q'.state == USED && (!Resume(s.procs[p].pc).ForkRun? ==> q'.parent == None)
    {
      assert ForkOk(s, p);
    }
    RecordOnly(P, s, s', j, q');
    LogProcs(s, s');
  }

  /** With its p->lock free and the channel's lock held by the waker, whoever is on the channel
      is SLEEPING and gets woken. */
  lemma PassedIsAwake(P: Params, s: State, c: nat, p: nat, ch: Chan, idx: nat, k: WakeAt)
    requires Inv(P, s) && AtPc(s, c, p, Wake(ch, idx, k)) && idx < |s.procs|
    requires idx != p ==> Free(s, PLock(idx))
    ensures SleepChan(Woken(s.procs[idx], ch), idx) != Some(ch)
  {
    assert ScanOk(P, s, p) && StateOk(s, idx);
    if idx != p && SleepChan(s.procs[idx], idx) == Some(ch) {
      SleepersBeside(P, s, c, p, idx);
      if s.procs[idx].pc.SleepOnly? {
        var d :| 0 <= d < |s.cpus| && s.cpus[d].at == InProc(idx);
        Mutex(s, d, d, PLock(idx));
      }
    }
  }

  /** wakeup moves past a process that does not sleep on the channel. */
  lemma PassKeeps(P: Params, s: State, c: nat, p: nat, ch: Chan, idx: nat, k: WakeAt)
    requires Inv(P, s) && AtPc(s, c, p, Wake(ch, idx, k)) && idx < |s.procs|
    requires SleepChan(s.procs[idx], idx) != Some(ch)
    ensures Inv(P, Goto(s, p, Wake(ch, idx + 1, k)))
  {
    MoveSame(P, s, c, p, Wake(ch, idx + 1, k));
  }

  lemma WakeStepKeeps(P: Params, s: State, c: nat, p: nat, ch: Chan, idx: nat, k: WakeAt, ok: bool)
    requires Inv(P, s) && AtPc(s, c, p, Wake(ch, idx, k)) && idx < |s.procs|
    requires idx != p ==> Free(s, PLock(idx))
    requires CanContinue(s, c)
    ensures Inv(P, Advance(P, s, c, ok))
  {
    assert SleepChan(Woken(s.procs[idx], ch), idx) != Some(ch) by { PassedIsAwake(P, s, c, p, ch, idx, k); }
    if idx == p {
      assert Advance(P, s, c, ok) == Goto(s, p, Wake(ch, idx + 1, k));
      OwnPassKeeps(P, s, c, p, ch, k);
    } else {
      var t := s.(procs := s.procs[idx := Woken(s.procs[idx], ch)]);
      assert Advance(P, s, c, ok) == Goto(t, p, Wake(ch, idx + 1, k));
      WokenPassKeeps(P, s, t, c, p, ch, idx, k);
    }
  }

  lemma OwnPassKeeps(P: Params, s: State, c: nat, p: nat, ch: Chan, k: WakeAt)
    requires Inv(P, s) && AtPc(s, c, p, Wake(ch, p, k)) && p < |s.procs|
    requires SleepChan(Woken(s.procs[p], ch), p) != Some(ch)
    ensures Inv(P, Goto(s, p, Wake(ch, p + 1, k)))
  {
    PassKeeps(P, s, c, p, ch, p, k);
  }

  lemma WokenPassKeeps(P: Params, s: State, t: State, c: nat, p: nat, ch: Chan, idx: nat, k: WakeAt)
    requires Inv(P, s) && AtPc(s, c, p, Wake(ch, idx, k)) && idx < |s.procs| && idx != p && Free(s, PLock(idx))
    requires t == s.(procs := s.procs[idx := Woken(s.procs[idx], ch)])
    requires SleepChan(Woken(s.procs[idx], ch), idx) != Some(ch)
    ensures Inv(P, Goto(t, p, Wake(ch, idx + 1, k)))
  {
    assert Inv(P, t) by { WokenKeeps(P, s, idx, Woken(s.procs[idx], ch)); }
    PassKeeps(P, t, c, p, ch, idx, k);
  }

  lemma KillKeeps(P: Params, s: State, c: nat, j: nat)
    requires Inv(P, s) && Enabled(P, s, Kill(c, j))
    ensures Inv(P, Next(P, s, Kill(c, j)))
  {
    var q := s.procs[j];
    WokenKeeps(P, s, j, q.(killed := true, state := if q.state == SLEEPING then RUNNABLE else q.state));
  }

  // ---------------------------------------------------------------------------------------
  // begin_op, end_op and commit.

  lemma BeginSleepKeeps(P: Params, s: State, c: nat, p: nat, ok: bool)
    requires Inv(P, s) && AtPc(s, c, p, BeginCheck) && (!s.commit.NoCommit? || TooFull(P, s))
    requires CanContinue(s, c)
    ensures Inv(P, Advance(P, s, c, ok))
  {
    assert Advance(P, s, c, ok) == Goto(s, p, SleepEnter(InBegin));
    assert Blocked(P, s, LogChan);
    MoveSame(P, s, c, p, SleepEnter(InBegin));
  }

  lemma {:induction false} SlotsMono(n: nat, m: nat, maxOp: nat)
    requires n <= m
    ensures R.Slots(n, maxOp) <= R.Slots(m, maxOp)
    decreases m
  {
    if n < m { SlotsMono(n, m - 1, maxOp); }
  }

  lemma BeginTakeKeeps(P: Params, s: State, c: nat, p: nat, ok: bool)
    requires Inv(P, s) && AtPc(s, c, p, BeginCheck) && s.commit.NoCommit?
    requires CanContinue(s, c)
    requires !TooFull(P, s)
    ensures Inv(P, Advance(P, s, c, ok))
  {
    assert Advance(P, s, c, ok) == Goto(Rel(s, LogLock), p, Idle).(ops := s.ops + {p});
    assert StateOk(s, p);
    CalmOk(P, s, p, Idle);
    MoveRel(P, s, c, p, Idle, LogLock);
    JoinKeeps(P, Goto(Rel(s, LogLock), p, Idle), p);
  }

  lemma JoinKeeps(P: Params, s: State, p: nat)
    requires Inv(P, s) && s.commit.NoCommit? && p < |s.procs| && s.procs[p].pc == Idle && Alive(s.procs[p])
    ensures Inv(P, s.(ops := s.ops + {p}))
  {
    var s' := s.(ops := s.ops + {p});
    assert |s'.ops| >= |s.ops| by { assert p in s.ops ==> s'.ops == s.ops; }
    SlotsMono(|s.ops| + 1, |s'.ops| + 1, P.maxOp);
    SharedOnly(P, s, s');
  }

  lemma AppendKeeps(P: Params, s: State, p: nat)
    requires Inv(P, s) && p in s.ops
    ensures Inv(P, s.(lhn := s.lhn + 1))
  {
    SharedOnly(P, s, s.(lhn := s.lhn + 1));
  }

  /** end_op that leaves other operations in progress: their reservation shrinks, and a wakeup
      begins. */
  lemma EndMoreKeeps(P: Params, s: State, c: nat, p: nat, ok: bool)
    requires Inv(P, s) && AtPc(s, c, p, EndDec) && |s.ops - {p}| != 0
    requires CanContinue(s, c)
    ensures Inv(P, Advance(P, s, c, ok))
  {
    assert Advance(P, s, c, ok) == Goto(s, p, Wake(LogChan, 0, AfterEnd)).(ops := s.ops - {p});
    MoveSame(P, s, c, p, Wake(LogChan, 0, AfterEnd));
    var t := Goto(s, p, Wake(LogChan, 0, AfterEnd));
    LeaveOpKeeps(P, t, p);
  }

  lemma LeaveOpKeeps(P: Params, s: State, p: nat)
    requires Inv(P, s) && p < |s.procs| && s.ops - {p} != {} && s.procs[p].pc == Wake(LogChan, 0, AfterEnd)
    ensures Inv(P, s.(ops := s.ops - {p}))
  {
    var s' := s.(ops := s.ops - {p});
    assert WakesAt(s.procs[p].pc, LogChan, 0);
    SharedOnly(P, s, s');
    assert s'.ops != {};
    assert s.commit.NoCommit?;
  }

  /** The last end_op: commit begins. */
  lemma EndLastKeeps(P: Params, s: State, c: nat, p: nat, ok: bool)
    requires Inv(P, s) && AtPc(s, c, p, EndDec) && |s.ops - {p}| == 0
    requires CanContinue(s, c)
    ensures Inv(P, Advance(P, s, c, ok))
  {
    assert Advance(P, s, c, ok) == Goto(Rel(s, LogLock), p, Idle).(ops := s.ops - {p}, commit := Writing(p));
    var t := Goto(Rel(s, LogLock), p, Idle);
    assert StateOk(s, p) && p in s.ops && s.ops - {p} == {};
    CalmOk(P, s, p, Idle);
    MoveRel(P, s, c, p, Idle, LogLock);
    CommitKeeps(P, t, t.(ops := {}, commit := Writing(p)));
  }

  /** The log's fields change during a commit. */
  lemma CommitKeeps(P: Params, s: State, s': State)
    requires Core(P, s) && s' == s.(ops := {}, lhn := s'.lhn, commit := s'.commit) && !s'.commit.NoCommit?
    requires s'.commit.p < |s.procs| && Working(s.procs[s'.commit.p]) && (s'.commit.Written? ==> s'.lhn == 0)
    requires forall p | 0 <= p < |s.procs| :: s.procs[p].pc != CommitFin && s.procs[p].pc != EndDec
    ensures Inv(P, s')
  {
    SharedOnly(P, s, s');
  }

  lemma CommitWriteKeeps(P: Params, s: State, c: nat)
    requires Inv(P, s) && Enabled(P, s, CommitWrite(c))
    ensures Inv(P, Next(P, s, CommitWrite(c)))
  {
    CommitKeeps(P, s, Next(P, s, CommitWrite(c)));
  }

  lemma CommitFinKeeps(P: Params, s: State, c: nat, p: nat, ok: bool)
    requires Inv(P, s) && AtPc(s, c, p, CommitFin)
    requires CanContinue(s, c)
    ensures Inv(P, Advance(P, s, c, ok))
  {
    assert Advance(P, s, c, ok) == Goto(s, p, Wake(LogChan, 0, AfterCommit)).(commit := NoCommit);
    var t := Goto(s, p, Wake(LogChan, 0, AfterCommit));
    MoveSame(P, s, c, p, Wake(LogChan, 0, AfterCommit));
    assert WakesAt(t.procs[p].pc, LogChan, 0);
    SharedOnly(P, t, t.(commit := NoCommit));
  }

  // ---------------------------------------------------------------------------------------
  // wait.

  /** wait()'s scan moves on past a process that is not an exited child. */
  lemma ScanMove(P: Params, s: State, p: nat, j: nat, kids: bool)
    requires p < |s.procs| && j < |s.procs| && ScanKidsOk(s, p)
    requires s.procs[p].pc == WaitChild(j) || (s.procs[p].pc.WaitScan? && s.procs[p].pc.j == j)
    requires !(s.procs[j].parent == Some(p) && s.procs[j].state == ZOMBIE)
    ensures MoveOk(P, s, p, WaitScan(j + 1, kids))
  {
    assert NoZombieBelow(s, p, j);
    assert NoZombieBelow(s, p, j + 1);
  }

  lemma WaitVisitKeeps(P: Params, s: State, c: nat, p: nat, j: nat, kids: bool, ok: bool)
    requires Inv(P, s) && AtPc(s, c, p, WaitScan(j, kids)) && j < |s.procs| && s.procs[j].parent == Some(p)
    requires CanContinue(s, c)
    ensures Inv(P, Advance(P, s, c, ok))
  {
    assert Advance(P, s, c, ok) == Goto(Acq(s, c, PLock(j)), p, WaitChild(j));
    assert ScanKidsOk(s, p);
    MoveAcq(P, s, c, p, WaitChild(j), PLock(j));
  }

  lemma WaitPassKeeps(P: Params, s: State, c: nat, p: nat, j: nat, kids: bool, ok: bool)
    requires Inv(P, s) && AtPc(s, c, p, WaitScan(j, kids)) && j < |s.procs| && s.procs[j].parent != Some(p)
    requires CanContinue(s, c)
    ensures Inv(P, Advance(P, s, c, ok))
  {
    assert Advance(P, s, c, ok) == Goto(s, p, WaitScan(j + 1, kids));
    assert ScanKidsOk(s, p) && StateOk(s, p);
    ScanMove(P, s, p, j, kids);
    MoveSame(P, s, c, p, WaitScan(j + 1, kids));
  }

  /** wait() goes to sleep only after a scan that met no exited child. */
  lemma WaitSleepKeeps(P: Params, s: State, c: nat, p: nat, j: nat, kids: bool, ok: bool)
    requires Inv(P, s) && AtPc(s, c, p, WaitScan(j, kids)) && j >= |s.procs|
    requires CanContinue(s, c)
    requires kids && !s.procs[p].killed
    ensures Inv(P, Advance(P, s, c, ok))
  {
    assert Advance(P, s, c, ok) == Goto(s, p, SleepEnter(InWait));
    assert ScanKidsOk(s, p);
    assert Blocked(P, s, ProcChan(p));
    MoveSame(P, s, c, p, SleepEnter(InWait));
  }

  lemma WaitGiveUpKeeps(P: Params, s: State, c: nat, p: nat, j: nat, kids: bool, ok: bool)
    requires Inv(P, s) && AtPc(s, c, p, WaitScan(j, kids))
    requires CanContinue(s, c)
    requires j >= |s.procs| && (!kids || s.procs[p].killed)
    ensures Inv(P, Advance(P, s, c, ok))
  {
    assert Advance(P, s, c, ok) == Goto(s, p, WaitDone);
    CalmOk(P, s, p, WaitDone);
    MoveSame(P, s, c, p, WaitDone);
  }

  lemma WaitNextKeeps(P: Params, s: State, c: nat, p: nat, j: nat, ok: bool)
    requires Inv(P, s) && AtPc(s, c, p, WaitChild(j)) && j < |s.procs| && s.procs[j].state != ZOMBIE
    requires CanContinue(s, c)
    ensures Inv(P, Advance(P, s, c, ok))
  {
    assert Advance(P, s, c, ok) == Goto(Rel(s, PLock(j)), p, WaitScan(j + 1, true));
    assert ScanKidsOk(s, p) && StateOk(s, p);
    ScanMove(P, s, p, j, true);
    MoveRel(P, s, c, p, WaitScan(j + 1, true), PLock(j));
  }

  lemma WaitFaultKeeps(P: Params, s: State, c: nat, p: nat, j: nat)
    requires Inv(P, s) && AtPc(s, c, p, WaitChild(j)) && j < |s.procs|
    ensures Inv(P, Goto(Rel(s, PLock(j)), p, WaitDone))
  {
    CalmOk(P, s, p, WaitDone);
    MoveRel(P, s, c, p, WaitDone, PLock(j));
  }

  lemma WaitFaultStepKeeps(P: Params, s: State, c: nat, p: nat, j: nat, ok: bool)
    requires Inv(P, s) && AtPc(s, c, p, WaitChild(j)) && CanContinue(s, c) && s.procs[j].state == ZOMBIE && !ok
    ensures Inv(P, Advance(P, s, c, ok))
  {
    assert Advance(P, s, c, ok) == Goto(Rel(s, PLock(j)), p, WaitDone);
    WaitFaultKeeps(P, s, c, p, j);
  }

  lemma WaitDoneKeeps(P: Params, s: State, c: nat, p: nat, ok: bool)
    requires Inv(P, s) && AtPc(s, c, p, WaitDone)
    requires CanContinue(s, c)
    ensures Inv(P, Advance(P, s, c, ok))
  {
    assert Advance(P, s, c, ok) == Goto(Rel(s, WaitLock), p, Idle);
    CalmOk(P, s, p, Idle);
    MoveRel(P, s, c, p, Idle, WaitLock);
  }

  /** The parent holding a zombie's lock knows the zombie is off its CPU. */
  lemma ZombieIsOff(P: Params, s: State, c: nat, p: nat, j: nat)
    requires Inv(P, s) && AtPc(s, c, p, WaitChild(j)) && j < |s.procs| && s.procs[j].state == ZOMBIE
    ensures j != p && !OnCpu(s, j) && forall d | 0 <= d < |s.cpus| :: s.cpus[d].proc != Some(j)
  {
    assert StateOk(s, p) && StateOk(s, j);
    assert PLock(j) in HeldBy(s, c);
    forall d | 0 <= d < |s.cpus| ensures s.cpus[d].proc != Some(j) && s.cpus[d].at != InProc(j) {
      assert CpuOk(s, d);
      if s.cpus[d].proc == Some(j) {
        assert PLock(j) in HeldBy(s, d);
        Mutex(s, c, d, PLock(j));
      }
    }
  }

  /** freeproc() of a process no thread or child refers to. */
  lemma FreeKeeps(P: Params, s: State, j: nat)
    requires Inv(P, s) && j < |s.procs| && (s.procs[j].state == ZOMBIE || s.procs[j].state == USED) && !OnCpu(s, j)
    requires forall q | 0 <= q < |s.procs| :: !ForksNp(s.procs[q].pc, j) && s.procs[q].pc != WaitChild(j)
    ensures Inv(P, s.(procs := s.procs[j := FREED]))
  {
    var s' := s.(procs := s.procs[j := FREED]);
    assert StateOk(s, j);
    forall k | 0 <= k < |s.procs| ensures s.procs[k].parent != Some(j) {
      assert KidOk(s, k);
    }
    RecordOnly(P, s, s', j, FREED);
    LogProcs(s, s');
  }

  lemma ReapKeeps(P: Params, s: State, c: nat, p: nat, j: nat, ok: bool)
    requires Inv(P, s) && AtPc(s, c, p, WaitChild(j)) && j < |s.procs| && s.procs[j].state == ZOMBIE
    requires CanContinue(s, c)
    requires ok
    ensures Inv(P, Advance(P, s, c, ok))
  {
    ZombieIsOff(P, s, c, p, j);
    NotForked(s, j);
    WaitFaultKeeps(P, s, c, p, j);
    var t := Goto(Rel(s, PLock(j)), p, WaitDone);
    forall q | 0 <= q < |t.procs| ensures !ForksNp(t.procs[q].pc, j) && t.procs[q].pc != WaitChild(j) {
      if q != p { OthersNotScanning(s, c, p, q); }
    }
    assert OnCpu(t, j) == OnCpu(s, j);
    FreeKeeps(P, t, j);
    UpdateOther(s.procs, j, FREED, p, t.procs[p]);
  }

  // ---------------------------------------------------------------------------------------
  // exit.

  lemma SkipMove(P: Params, s: State, p: nat, j: nat)
    requires p < |s.procs| && j < |s.procs| && s.procs[p].pc == ExitReparent(j) && s.procs[j].parent != Some(p)
    ensures MoveOk(P, s, p, ExitReparent(j + 1))
  {
  }

  lemma ReparentSkipKeeps(P: Params, s: State, c: nat, p: nat, j: nat, ok: bool)
    requires Inv(P, s) && AtPc(s, c, p, ExitReparent(j)) && j < |s.procs| && s.procs[j].parent != Some(p)
    requires CanContinue(s, c)
    ensures Inv(P, Advance(P, s, c, ok))
  {
    assert Advance(P, s, c, ok) == Goto(s, p, ExitReparent(j + 1));
    NotExitingInOp(P, s, p);
    SkipMove(P, s, p, j);
    MoveSame(P, s, c, p, ExitReparent(j + 1));
  }

  lemma ReparentMoveKeeps(P: Params, s: State, c: nat, p: nat, j: nat, ok: bool)
    requires Inv(P, s) && AtPc(s, c, p, ExitReparent(j)) && j < |s.procs| && s.procs[j].parent == Some(p)
    requires CanContinue(s, c)
    ensures Inv(P, Advance(P, s, c, ok))
  {
    var s' := Goto(s.(procs := s.procs[j := s.procs[j].(parent := Some(P.init))]), p,
                   Wake(ProcChan(P.init), 0, AfterReparent(j + 1)));
    assert Advance(P, s, c, ok) == s';
    ReparentKeeps(P, s, s', c, p, j);
    ReparentLog(s, s', p);
  }

  lemma ReparentLog(s: State, s': State, p: nat)
    requires LogInv(s) && SameShared(s, s') && |s'.procs| == |s.procs| && p < |s.procs|
    requires Exiting(s.procs[p].pc) && s'.procs[p].pc.Wake?
    requires forall q | 0 <= q < |s.procs| && q != p :: s'.procs[q] == s.procs[q].(parent := s'.procs[q].parent)
    ensures LogInv(s')
  {
    assert p !in s.ops && !InCommit(s, p);
    LogProcs(s, s');
  }

  lemma NotExitingInOp(P: Params, s: State, p: nat)
    requires LogInv(s) && p < |s.procs| && Exiting(s.procs[p].pc)
    ensures p !in s.ops && !InCommit(s, p)
  {
  }

  lemma ReparentEndKeeps(P: Params, s: State, c: nat, p: nat, j: nat, ok: bool)
    requires Inv(P, s) && AtPc(s, c, p, ExitReparent(j)) && j >= |s.procs|
    requires CanContinue(s, c)
    ensures Inv(P, Advance(P, s, c, ok))
  {
    NotExitingInOp(P, s, p);
    forall q | 0 <= q < |s.procs| ensures s.procs[q].parent != Some(p) {
      assert KidOk(s, q);
    }
    if s.procs[p].parent.Some? {
      MoveSame(P, s, c, p, Wake(ProcChan(s.procs[p].parent.value), 0, AfterExit));
    } else {
      MoveSame(P, s, c, p, ExitLock);
    }
  }

  lemma ExitLockKeeps(P: Params, s: State, c: nat, p: nat, ok: bool)
    requires Inv(P, s) && AtPc(s, c, p, ExitLock) && Free(s, PLock(p))
    requires CanContinue(s, c)
    ensures Inv(P, Advance(P, s, c, ok))
  {
    assert Advance(P, s, c, ok) == Goto(Acq(s, c, PLock(p)), p, ExitBoth);
    NotExitingInOp(P, s, p);
    assert ExitOk(s, p);
    MoveAcq(P, s, c, p, ExitBoth, PLock(p));
  }

  lemma ExitBothKeeps(P: Params, s: State, c: nat, p: nat, ok: bool)
    requires Inv(P, s) && AtPc(s, c, p, ExitBoth)
    requires CanContinue(s, c)
    ensures Inv(P, Advance(P, s, c, ok))
  {
    NotExitingInOp(P, s, p);
    var s' := s.(procs := s.procs[p := s.procs[p].(state := ZOMBIE, pc := ExitZombie)]);
    ZombieKeeps(P, s, s', c, p);
    LogProcs(s, s');
    assert s.procs[p := s.procs[p].(state := ZOMBIE)][p := s'.procs[p]] == s'.procs;
  }

  lemma ExitZombieKeeps(P: Params, s: State, c: nat, p: nat, ok: bool)
    requires Inv(P, s) && AtPc(s, c, p, ExitZombie)
    requires CanContinue(s, c)
    ensures Inv(P, Advance(P, s, c, ok))
  {
    assert Advance(P, s, c, ok) == Goto(Rel(s, WaitLock), p, ExitSched);
    NotExitingInOp(P, s, p);
    MoveRel(P, s, c, p, ExitSched, WaitLock);
  }

  lemma ExitSchedKeeps(P: Params, s: State, c: nat, p: nat, ok: bool)
    requires Inv(P, s) && AtPc(s, c, p, ExitSched)
    requires CanContinue(s, c)
    ensures Inv(P, Advance(P, s, c, ok))
  {
    assert Advance(P, s, c, ok) == ToSched(s, c, p, Gone);
    NotExitingInOp(P, s, p);
    var q' := s.procs[p].(pc := Gone);
    assert StateOk(s, p);
    NotForked(s, p);
    ToSchedKeeps(P, s, ToSched(s, c, p, Gone), c, p, q');
    LogProcs(s, ToSched(s, c, p, Gone));
  }

  // ---------------------------------------------------------------------------------------
  // fork.

  lemma ForkSkipKeeps(P: Params, s: State, c: nat, p: nat, j: nat, ok: bool)
    requires Inv(P, s) && AtPc(s, c, p, ForkScan(j)) && (j < |s.procs| ==> s.procs[j].state != UNUSED)
    requires CanContinue(s, c)
    ensures Inv(P, Advance(P, s, c, ok))
  {
    var pc' := if j < |s.procs| then ForkScan(j + 1) else Idle;
    assert Advance(P, s, c, ok) == Goto(s, p, pc');
    CalmOk(P, s, p, pc');
    MoveSame(P, s, c, p, pc');
  }

  /** allocproc() claims an UNUSED slot. */
  lemma ClaimKeeps(P: Params, s: State, j: nat)
    requires Inv(P, s) && j < |s.procs| && s.procs[j].state == UNUSED
    ensures var t := s.(procs := s.procs[j := s.procs[j].(state := USED, pc := ForkRet)]);
            Inv(P, t) && t.procs[j].parent == None && forall r | 0 <= r < |t.procs| :: !ForksNp(t.procs[r].pc, j)
  {
    var q' := s.procs[j].(state := USED, pc := ForkRet);
    var t := s.(procs := s.procs[j := q']);
    assert StateOk(s, j);
    NotForked(s, j);
    forall k | 0 <= k < |s.procs| ensures s.procs[k].parent != Some(j) {
      assert KidOk(s, k);
    }
    RecordOnly(P, s, t, j, q');
    LogProcs(s, t);
  }

  lemma ForkTakeKeeps(P: Params, s: State, c: nat, p: nat, j: nat)
    requires Inv(P, s) && AtPc(s, c, p, ForkScan(j)) && j < |s.procs| && Free(s, PLock(j))
    requires s.procs[j].state == USED && s.procs[j].parent == None
    requires forall r | 0 <= r < |s.procs| :: !ForksNp(s.procs[r].pc, j)
    ensures Inv(P, Goto(Acq(s, c, PLock(j)), p, ForkHold(j)))
  {
    MoveAcq(P, s, c, p, ForkHold(j), PLock(j));
  }

  lemma ForkClaimKeeps(P: Params, s: State, c: nat, p: nat, j: nat, ok: bool)
    requires Inv(P, s) && AtPc(s, c, p, ForkScan(j)) && j < |s.procs| && s.procs[j].state == UNUSED && Free(s, PLock(j))
    requires CanContinue(s, c)
    ensures Inv(P, Advance(P, s, c, ok))
  {
    var t := s.(procs := s.procs[j := s.procs[j].(state := USED, pc := ForkRet)]);
    assert StateOk(s, p) && j != p;
    ClaimKeeps(P, s, j);
    ForkTakeKeeps(P, t, c, p, j);
  }

  /** The process being forked is nobody else's business yet. */
  lemma ForkFacts(P: Params, s: State, c: nat, p: nat, np: nat)
    requires Inv(P, s) && c < |s.cpus| && s.cpus[c].at == InProc(p) && p < |s.procs| && ForksNp(s.procs[p].pc, np)
    ensures np < |s.procs| && np != p && s.procs[np].state == USED && !OnCpu(s, np) && s.procs[p].state == RUNNING
    ensures !Resume(s.procs[p].pc).ForkRun? ==> s.procs[np].parent == None
    ensures forall q | 0 <= q < |s.procs| && q != p :: !ForksNp(s.procs[q].pc, np)
  {
    assert ForkOk(s, p) && StateOk(s, p) && StateOk(s, np);
  }

  lemma ForkHoldKeeps(P: Params, s: State, c: nat, p: nat, np: nat, ok: bool)
    requires Inv(P, s) && AtPc(s, c, p, ForkHold(np)) && np < |s.procs|
    requires CanContinue(s, c)
    requires ok
    ensures Inv(P, Advance(P, s, c, ok))
  {
    assert Advance(P, s, c, ok) == Goto(Rel(s, PLock(np)), p, ForkParent(np));
    MoveRel(P, s, c, p, ForkParent(np), PLock(np));
  }

  lemma ForkDropKeeps(P: Params, s: State, c: nat, p: nat, np: nat)
    requires Inv(P, s) && AtPc(s, c, p, ForkHold(np)) && np < |s.procs|
    ensures Inv(P, Goto(Rel(s, PLock(np)), p, Idle))
  {
    CalmOk(P, s, p, Idle);
    MoveRel(P, s, c, p, Idle, PLock(np));
  }

  /** A process without a parent is not being looked at by wait(). */
  lemma OrphanNotScanned(s: State, j: nat)
    requires ScanKidsInv(s) && j < |s.procs| && s.procs[j].parent == None
    ensures forall q | 0 <= q < |s.procs| :: s.procs[q].pc != WaitChild(j)
  {
    forall q | 0 <= q < |s.procs| ensures s.procs[q].pc != WaitChild(j) {
      assert ScanKidsOk(s, q);
    }
  }

  lemma ForkFailKeeps(P: Params, s: State, c: nat, p: nat, np: nat, ok: bool)
    requires Inv(P, s) && AtPc(s, c, p, ForkHold(np)) && np < |s.procs|
    requires CanContinue(s, c)
    requires !ok
    ensures Inv(P, Advance(P, s, c, ok))
  {
    var t := Goto(Rel(s, PLock(np)), p, Idle);
    ForkFacts(P, s, c, p, np);
    ForkDropKeeps(P, s, c, p, np);
    assert OnCpu(t, np) == OnCpu(s, np);
    FreeOrphanKeeps(P, t, np);
    UpdateOther(s.procs, np, FREED, p, t.procs[p]);
  }

  lemma UpdateOther(procs: seq<Proc>, j: nat, x: Proc, p: nat, y: Proc)
    requires j < |procs| && p < |procs| && j != p
    ensures procs[j := x][p := y] == procs[p := y][j := x]
  {
  }

  lemma FreeOrphanKeeps(P: Params, s: State, j: nat)
    requires Inv(P, s) && j < |s.procs| && s.procs[j].state == USED && !OnCpu(s, j) && s.procs[j].parent == None
    requires forall q | 0 <= q < |s.procs| :: !ForksNp(s.procs[q].pc, j)
    ensures Inv(P, s.(procs := s.procs[j := FREED]))
  {
    OrphanNotScanned(s, j);
    FreeKeeps(P, s, j);
  }

  lemma ForkAdvanceKeeps(P: Params, s: State, c: nat, p: nat, np: nat)
    requires Inv(P, s) && AtPc(s, c, p, ForkParent(np)) && np < |s.procs|
    ensures Inv(P, Goto(s, p, ForkRun(np)))
  {
    assert ForkMoveOk(s, p, ForkRun(np)) by { assert ForkOk(s, p); }
    assert MoveOk(P, s, p, ForkRun(np)) && LogMoveOk(s, p, ForkRun(np));
    MoveSame(P, s, c, p, ForkRun(np));
  }

  lemma ForkParentKeeps(P: Params, s: State, c: nat, p: nat, np: nat, ok: bool)
    requires Inv(P, s) && AtPc(s, c, p, ForkParent(np)) && np < |s.procs|
    requires CanContinue(s, c)
    ensures Inv(P, Advance(P, s, c, ok))
  {
    ForkFacts(P, s, c, p, np);
    ForkAdvanceKeeps(P, s, c, p, np);
    var t := Goto(s, p, ForkRun(np));
    AdoptKeeps(P, t, p, np);
    UpdateOther(s.procs, np, s.procs[np].(parent := Some(p)), p, t.procs[p]);
  }

  lemma AdoptKeeps(P: Params, s: State, p: nat, np: nat)
    requires Inv(P, s) && p < |s.procs| && s.procs[p].pc == ForkRun(np) && s.procs[p].state == RUNNING
    requires np < |s.procs| && np != p && s.procs[np].state == USED && s.procs[np].parent == None
    ensures Inv(P, s.(procs := s.procs[np := s.procs[np].(parent := Some(p))]))
  {
    var q' := s.procs[np].(parent := Some(p));
    var s' := s.(procs := s.procs[np := q']);
    assert StateOk(s, np) && ForkOk(s, p);
    OrphanNotScanned(s, np);
    RecordOnly(P, s, s', np, q');
    LogProcs(s, s');
  }

  lemma ForkLeaveKeeps(P: Params, s: State, c: nat, p: nat, np: nat)
    requires Inv(P, s) && AtPc(s, c, p, ForkRun(np))
    ensures Inv(P, Goto(s, p, Idle))
  {
    CalmOk(P, s, p, Idle);
    MoveSame(P, s, c, p, Idle);
  }

  lemma ForkRunKeeps(P: Params, s: State, c: nat, p: nat, np: nat, ok: bool)
    requires Inv(P, s) && AtPc(s, c, p, ForkRun(np)) && np < |s.procs|
    requires CanContinue(s, c)
    ensures Inv(P, Advance(P, s, c, ok))
  {
    ForkFacts(P, s, c, p, np);
    ForkLeaveKeeps(P, s, c, p, np);
    var t := Goto(s, p, Idle);
    ReadyKeeps(P, t, np);
    UpdateOther(s.procs, np, s.procs[np].(state := RUNNABLE), p, t.procs[p]);
  }

  lemma ReadyKeeps(P: Params, s: State, np: nat)
    requires Inv(P, s) && np < |s.procs| && s.procs[np].state == USED
    requires forall r | 0 <= r < |s.procs| :: !ForksNp(s.procs[r].pc, np)
    ensures Inv(P, s.(procs := s.procs[np := s.procs[np].(state := RUNNABLE)]))
  {
    var q' := s.procs[np].(state := RUNNABLE);
    var s' := s.(procs := s.procs[np := q']);
    assert StateOk(s, np);
    RecordOnly(P, s, s', np, q');
    LogProcs(s, s');
  }

  // ---------------------------------------------------------------------------------------
  // The scheduler.

  lemma SchedAcquireKeeps(P: Params, s: State, c: nat, p: nat)
    requires Inv(P, s) && Enabled(P, s, SchedAcquire(c, p))
    ensures Inv(P, Next(P, s, SchedAcquire(c, p)))
  {
    assert CpuOk(s, c);
    SchedMove(P, s, Next(P, s, SchedAcquire(c, p)), c, s.cpus[c].(at := SchedHold(p)));
  }

  lemma SchedLeaveKeeps(P: Params, s: State, c: nat)
    requires Inv(P, s) && c < |s.cpus| && (s.cpus[c].at.SchedHold? || s.cpus[c].at.SchedBack?)
    ensures Inv(P, Rel(s, PLock(s.cpus[c].at.p)).(cpus := s.cpus[c := Cpu(None, Sched)]))
  {
    var s' := Rel(s, PLock(s.cpus[c].at.p)).(cpus := s.cpus[c := Cpu(None, Sched)]);
    assert PLock(s.cpus[c].at.p) in HeldBy(s, c);
    SchedMove(P, s, s', c, Cpu(None, Sched));
  }
}
