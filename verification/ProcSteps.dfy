/** Steps of the process protocol keep its invariant: the shapes steps have in common. */
module ProcSteps {
  import opened Common
  import opened ProcProtocol
  import opened ProcInvariant

  /** The thread of p, running on c, moves to pc'; nothing but its control point and the lock
      table changes. */
  ghost predicate PcMove(s: State, s': State, c: nat, p: nat, pc': PC) {
    && c < |s.cpus| && s.cpus[c].at == InProc(p) && p < |s.procs|
    && s'.procs == s.procs[p := s.procs[p].(pc := pc')]
    && s'.cpus == s.cpus && s'.sl == s.sl && s'.ops == s.ops && s'.lhn == s.lhn && s'.commit == s.commit
  }

  /** CPU c takes the locks of `now` that it lacks, all free, and drops those of `was` it no
      longer holds. */
  ghost predicate LockMove(s: State, s': State, c: nat, was: set<LockId>, now: set<LockId>) {
    && (forall l | l in now && l !in was :: l !in s.locks)
    && (forall l :: l in s'.locks <==> l in now || (l in s.locks && l !in was))
    && (forall l | l in s'.locks :: s'.locks[l] == if l in now then c else s.locks[l])
  }

  /** A spinlock is held by one CPU. */
  lemma Mutex(s: State, c: nat, d: nat, l: LockId)
    requires LockInv(s) && c < |s.cpus| && d < |s.cpus| && l in HeldBy(s, c) && l in HeldBy(s, d)
    ensures c == d && l in s.locks && s.locks[l] == c
  {
    Holder(s, c, l);
    Holder(s, d, l);
  }

  lemma Holder(s: State, c: nat, l: LockId)
    requires LockInv(s) && c < |s.cpus| && l in HeldBy(s, c)
    ensures l in s.locks && s.locks[l] == c
  {
    assert 0 <= c < |s.cpus| && l in HeldBy(s, c);
  }

  lemma LockMoveKeeps(s: State, s': State, c: nat)
    requires LockInv(s) && c < |s.cpus| && |s'.cpus| == |s.cpus|
    requires forall d | 0 <= d < |s.cpus| && d != c :: HeldBy(s', d) == HeldBy(s, d)
    requires LockMove(s, s', c, HeldBy(s, c), HeldBy(s', c))
    ensures LockInv(s')
  {
    var was, now := HeldBy(s, c), HeldBy(s', c);
    forall l | l in s'.locks ensures s'.locks[l] < |s'.cpus| && l in HeldBy(s', s'.locks[l]) {
      if l !in now {
        assert l in HeldBy(s, s.locks[l]);
      }
    }
    forall d, l | 0 <= d < |s'.cpus| && l in HeldBy(s', d) ensures l in s'.locks && s'.locks[l] == d {
      if d != c {
        Mutex(s, d, d, l);
      }
    }
  }

  /** No two CPUs run the same process. */
  lemma OneCpu(s: State, c: nat, d: nat, p: nat)
    requires CpuInv(s) && c < |s.cpus| && d < |s.cpus| && s.cpus[c].at == InProc(p) && s.cpus[d].at == InProc(p)
    ensures c == d
  {
    assert CpuOk(s, c) && CpuOk(s, d);
  }

  lemma PcLock(s: State, s': State, c: nat, p: nat, pc': PC)
    requires CpuInv(s) && LockInv(s) && PcMove(s, s', c, p, pc')
    requires LockMove(s, s', c, Held(s.procs[p].pc, p), Held(pc', p))
    ensures LockInv(s')
  {
    forall d | 0 <= d < |s.cpus| && d != c ensures HeldBy(s', d) == HeldBy(s, d) {
      if s.cpus[d].at == InProc(p) { OneCpu(s, c, d, p); }
    }
    LockMoveKeeps(s, s', c);
  }

  /** A thread about to sleep that still holds the channel's lock runs on some CPU. */
  lemma DeciderHolds(s: State, p: nat) returns (c: nat)
    requires CpuInv(s) && LockInv(s) && StateInv(s) && p < |s.procs|
    requires s.procs[p].pc.SleepEnter? || s.procs[p].pc.SleepBoth?
    ensures c < |s.cpus| && s.cpus[c].at == InProc(p)
    ensures LockFor(SleepChan(s.procs[p], p).value) in HeldBy(s, c)
  {
    assert StateOk(s, p);
    c :| 0 <= c < |s.cpus| && s.cpus[c].at == InProc(p);
  }

  /** wakeup runs with its channel's lock held. */
  lemma WakerHolds(P: Params, s: State, r: nat) returns (c: nat)
    requires StateInv(s) && ScanInv(P, s) && r < |s.procs| && s.procs[r].pc.Wake?
    ensures c < |s.cpus| && s.cpus[c].at == InProc(r)
    ensures LockFor(s.procs[r].pc.ch) in HeldBy(s, c)
  {
    assert StateOk(s, r) && ScanOk(P, s, r);
    c :| 0 <= c < |s.cpus| && s.cpus[c].at == InProc(r);
  }

  /** While CPU c holds a channel's lock, no other thread is in wakeup for it. */
  lemma NoOtherWaker(P: Params, s: State, c: nat, p: nat, ch: Chan, r: nat)
    requires CpuInv(s) && LockInv(s) && StateInv(s) && ScanInv(P, s)
    requires c < |s.cpus| && s.cpus[c].at == InProc(p) && p < |s.procs| && LockFor(ch) in HeldBy(s, c)
    requires r < |s.procs| && r != p
    ensures !(s.procs[r].pc.Wake? && s.procs[r].pc.ch == ch)
  {
    if s.procs[r].pc.Wake? && s.procs[r].pc.ch == ch {
      var d := WakerHolds(P, s, r);
      Mutex(s, c, d, LockFor(ch));
    }
  }

  // ---------------------------------------------------------------------------------------
  // Moves of one thread's control point.

  predicate SleepMoveOk(me: Proc, p: nat, pc': PC) {
    SleepChan(me.(pc := pc'), p).Some? ==> SleepChan(me.(pc := pc'), p) == SleepChan(me, p)
  }

  /** Newly decided to sleep: the condition holds and its lock is held. */
  ghost predicate Decides(P: Params, s: State, p: nat, pc': PC)
    requires p < |s.procs|
  {
    var ch := SleepChan(s.procs[p].(pc := pc'), p);
    ch.Some? && Blocked(P, s, ch.value) && LockFor(ch.value) in Held(s.procs[p].pc, p) && !s.procs[p].pc.Wake?
  }

  ghost predicate WakeMoveOk(P: Params, s: State, p: nat, pc': PC)
    requires p < |s.procs|
  {
    var pc := s.procs[p].pc;
    && (pc.Wake? && pc.idx < |s.procs| ==>
          pc' == Wake(pc.ch, pc.idx + 1, pc.k) && SleepChan(s.procs[pc.idx], pc.idx) != Some(pc.ch))
    && (pc'.Wake? && !pc.Wake? ==>
          && pc'.idx == 0 && LockFor(pc'.ch) == pc'.k.Lock()
          && (pc'.k.AfterReparent? ==> pc'.ch == ProcChan(P.init))
          && (pc'.k.AfterExit? ==> pc'.ch.ProcChan? && s.procs[p].parent == Some(pc'.ch.p)))
    && (pc'.Wake? && pc.Wake? ==> pc.idx < |s.procs|)
  }

  ghost predicate ExitMoveOk(P: Params, s: State, p: nat, pc': PC)
    requires p < |s.procs|
  {
    var me := s.procs[p];
    && (Exited(pc') <==> Exited(me.pc)) && pc' != Gone && pc' != Fresh
    && (forall q | 0 <= q < |s.procs| && s.procs[q].parent == Some(p) && KidAllowed(me.pc, q) :: KidAllowed(pc', q))
    && (Exiting(pc') && !Exiting(me.pc) ==> p != P.init && p !in s.ops && forall i | i in s.sl :: s.sl[i] != p)
    && ((pc'.ExitLock? || pc'.ExitBoth?) && me.parent.Some? && me.parent.value < |s.procs| ==>
          SleepChan(s.procs[me.parent.value], me.parent.value) != Some(ProcChan(me.parent.value)))
  }

  ghost predicate ScanMoveOk(s: State, p: nat, pc': PC) {
    match pc'
    case WaitScan(j, _) => NoZombieBelow(s, p, j)
    case WaitChild(j) => j < |s.procs| && s.procs[j].parent == Some(p) && NoZombieBelow(s, p, j)
    case RelClear(i) => i in s.sl && s.sl[i] == p
    case _ => true
  }

  predicate ForkMoveOk(s: State, p: nat, pc': PC)
    requires p < |s.procs|
  {
    Forks(pc') ==>
      var np := Resume(pc').np;
      || (ForksNp(s.procs[p].pc, np) && (Resume(pc').ForkRun? || !Resume(s.procs[p].pc).ForkRun?))
      || (&& np < |s.procs| && s.procs[np].state == USED && s.procs[np].parent == None
          && forall r | 0 <= r < |s.procs| :: !ForksNp(s.procs[r].pc, np))
  }

  lemma PcState(s: State, s': State, c: nat, p: nat, pc': PC)
    requires CpuInv(s) && StateInv(s) && PcMove(s, s', c, p, pc')
    requires Exited(pc') <==> Exited(s.procs[p].pc)
    requires pc' != Fresh && pc' != Gone
    ensures CpuInv(s') && StateInv(s')
  {
    assert forall d | 0 <= d < |s.cpus| :: CpuOk(s, d) ==> CpuOk(s', d);
    forall q | 0 <= q < |s'.procs| ensures StateOk(s', q) {
      assert StateOk(s, q);
      assert OnCpu(s', q) == OnCpu(s, q);
    }
  }

  lemma PcWake(P: Params, s: State, s': State, c: nat, p: nat, pc': PC)
    requires Core(P, s) && PcMove(s, s', c, p, pc')
    requires SleepMoveOk(s.procs[p], p, pc') || Decides(P, s, p, pc')
    requires WakeMoveOk(P, s, p, pc')
    ensures WakeInv(P, s')
  {
    forall q | 0 <= q < |s'.procs| ensures WakeOk(P, s', q) {
      assert WakeOk(P, s, q);
      var ch := SleepChan(s'.procs[q], q);
      if ch.Some? {
        assert Blocked(P, s, ch.value) ==> Blocked(P, s', ch.value);
        if !Blocked(P, s, ch.value) {
          WakerStays(P, s, s', c, p, pc', ch.value, q);
        }
      }
    }
  }

  lemma WakerStays(P: Params, s: State, s': State, c: nat, p: nat, pc': PC, ch: Chan, q: nat)
    requires ScanInv(P, s) && PcMove(s, s', c, p, pc') && WakeMoveOk(P, s, p, pc')
    requires q < |s.procs| && SleepChan(s.procs[q], q) == Some(ch) && Waker(s, ch, q)
    ensures Waker(s', ch, q)
  {
    var r :| 0 <= r < |s.procs| && WakesAt(s.procs[r].pc, ch, q);
    if r == p {
      assert ScanOk(P, s, p);
      assert WakesAt(s'.procs[p].pc, ch, q);
    } else {
      assert WakesAt(s'.procs[r].pc, ch, q);
    }
  }

  /** Anyone asleep on a channel whose lock CPU c holds is past releasing it. */
  lemma SleepersBeside(P: Params, s: State, c: nat, p: nat, q: nat)
    requires CpuInv(s) && LockInv(s) && StateInv(s)
    requires c < |s.cpus| && s.cpus[c].at == InProc(p) && p < |s.procs| && q < |s.procs| && q != p
    requires SleepChan(s.procs[q], q).Some? && LockFor(SleepChan(s.procs[q], q).value) in HeldBy(s, c)
    ensures s.procs[q].pc.SleepOnly? || s.procs[q].pc.SleepBack?
  {
    if s.procs[q].pc.SleepEnter? || s.procs[q].pc.SleepBoth? {
      var d := DeciderHolds(s, q);
      Mutex(s, c, d, LockFor(SleepChan(s.procs[q], q).value));
    }
  }

  lemma PcScan(P: Params, s: State, s': State, c: nat, p: nat, pc': PC)
    requires Core(P, s) && PcMove(s, s', c, p, pc')
    requires SleepMoveOk(s.procs[p], p, pc') || Decides(P, s, p, pc')
    requires WakeMoveOk(P, s, p, pc')
    ensures ScanInv(P, s')
  {
    forall r | 0 <= r < |s'.procs| ensures ScanOk(P, s', r) {
      assert ScanOk(P, s, r);
      if r != p && s'.procs[r].pc.Wake? && !SleepMoveOk(s.procs[p], p, pc') {
        NoOtherWaker(P, s, c, p, SleepChan(s.procs[p].(pc := pc'), p).value, r);
      }
    }
  }

  lemma PcKid(P: Params, s: State, s': State, c: nat, p: nat, pc': PC)
    requires Core(P, s) && PcMove(s, s', c, p, pc') && ExitMoveOk(P, s, p, pc')
    ensures KidInv(P, s')
  {
    forall q | 0 <= q < |s'.procs| ensures KidOk(s', q) {
      assert KidOk(s, q);
    }
  }

  lemma PcExit(P: Params, s: State, s': State, c: nat, p: nat, pc': PC)
    requires Core(P, s) && PcMove(s, s', c, p, pc') && ExitMoveOk(P, s, p, pc')
    requires SleepMoveOk(s.procs[p], p, pc') || Decides(P, s, p, pc')
    ensures ExitInv(s')
  {
    forall r | 0 <= r < |s'.procs| ensures ExitOk(s', r) {
      assert ExitOk(s, r);
      var q := s.procs[r];
      if r != p && (q.pc.ExitLock? || q.pc.ExitBoth?) && q.parent == Some(p) && !SleepMoveOk(s.procs[p], p, pc') {
        ExitHolds(s, r, c, p);
      }
    }
  }

  /** Between waking the parent and becoming a zombie, exit() holds wait_lock. */
  lemma ExitHolds(s: State, r: nat, c: nat, p: nat)
    requires CpuInv(s) && LockInv(s) && StateInv(s) && r < |s.procs|
    requires s.procs[r].pc.ExitLock? || s.procs[r].pc.ExitBoth?
    requires c < |s.cpus| && s.cpus[c].at == InProc(p) && p < |s.procs| && p != r
    ensures WaitLock !in HeldBy(s, c)
  {
    assert StateOk(s, r);
    var d :| 0 <= d < |s.cpus| && s.cpus[d].at == InProc(r);
    if WaitLock in HeldBy(s, c) { Mutex(s, c, d, WaitLock); }
  }

  lemma PcScanKids(P: Params, s: State, s': State, c: nat, p: nat, pc': PC)
    requires ScanKidsInv(s) && PcMove(s, s', c, p, pc') && ScanMoveOk(s, p, pc')
    ensures ScanKidsInv(s')
  {
    forall q | 0 <= q < |s'.procs| ensures ScanKidsOk(s', q) {
      assert ScanKidsOk(s, q);
      assert forall j | NoZombieBelow(s, q, j) :: NoZombieBelow(s', q, j);
    }
  }

  lemma PcForkOwner(P: Params, s: State, s': State, c: nat, p: nat, pc': PC)
    requires ForkInv(s) && OwnerInv(s) && PcMove(s, s', c, p, pc') && ScanMoveOk(s, p, pc') && ForkMoveOk(s, p, pc')
    requires ExitMoveOk(P, s, p, pc')
    ensures ForkInv(s') && OwnerInv(s')
  {
    forall q | 0 <= q < |s'.procs| ensures ForkOk(s', q) {
      assert ForkOk(s, q);
      assert ForkOk(s, p);
    }
  }

  ghost predicate MoveOk(P: Params, s: State, p: nat, pc': PC)
    requires p < |s.procs|
  {
    && (SleepMoveOk(s.procs[p], p, pc') || Decides(P, s, p, pc'))
    && WakeMoveOk(P, s, p, pc') && ExitMoveOk(P, s, p, pc')
    && ScanMoveOk(s, p, pc') && ForkMoveOk(s, p, pc')
  }

  /** A move of one thread's control point with the locks it takes and drops. */
  lemma PcOnly(P: Params, s: State, s': State, c: nat, p: nat, pc': PC)
    requires Core(P, s) && PcMove(s, s', c, p, pc') && MoveOk(P, s, p, pc')
    requires LockMove(s, s', c, Held(s.procs[p].pc, p), Held(pc', p))
    ensures Core(P, s')
  {
    PcLock(s, s', c, p, pc');
    PcState(s, s', c, p, pc');
    PcWake(P, s, s', c, p, pc');
    PcScan(P, s, s', c, p, pc');
    PcKid(P, s, s', c, p, pc');
    PcExit(P, s, s', c, p, pc');
    PcScanKids(P, s, s', c, p, pc');
    PcForkOwner(P, s, s', c, p, pc');
  }

  // ---------------------------------------------------------------------------------------
  // Changes to one process record.

  ghost predicate ProcMove(s: State, s': State, j: nat, q': Proc) {
    j < |s.procs| && s' == s.(procs := s.procs[j := q'])
  }

  /** The changed record makes sense for a thread in that place. */
  ghost predicate PlaceOk(s: State, j: nat, q': Proc)
    requires j < |s.procs|
  {
    var q := s.procs[j];
    if OnCpu(s, j) then q'.pc == q.pc && q'.state == q.state else Parked(q', j)
  }

  ghost predicate RecordOk(s: State, j: nat, q': Proc)
    requires j < |s.procs|
  {
    var q := s.procs[j];
    && (SleepChan(q', j).Some? ==> SleepChan(q', j) == SleepChan(q, j))
    && (q'.pc != q.pc ==>
          !q.pc.Wake? && (q'.pc.Fresh? || q'.pc.ForkRet? || q'.pc.YieldBack? || q'.pc.SleepBack? || q'.pc.Gone?))
    && (q'.pc != q.pc && q'.pc.YieldBack? ==> Resume(q'.pc) == Resume(q.pc))
    && (q'.state == ZOMBIE ==> q.state == ZOMBIE && q'.parent == q.parent)
    && (Alive(q) ==> Alive(q'))
  }

  /** Its family relations stay in order. */
  ghost predicate FamilyOk(s: State, j: nat, q': Proc)
    requires j < |s.procs|
  {
    var q := s.procs[j];
    && (q'.state == UNUSED || q'.state == USED ==>
          (q.state == UNUSED || q.state == USED || forall k | 0 <= k < |s.procs| :: s.procs[k].parent != Some(j)))
    && (forall k | 0 <= k < |s.procs| && s.procs[k].parent == Some(j) && KidAllowed(q.pc, k) :: KidAllowed(q'.pc, k))
    && (q'.parent != q.parent && q'.parent.Some? ==>
          && q'.parent.value < |s.procs| && q'.parent.value != j
          && s.procs[q'.parent.value].state != UNUSED && s.procs[q'.parent.value].state != USED
          && KidAllowed(s.procs[q'.parent.value].pc, j))
    && (q'.parent != q.parent ==> !Exiting(q.pc) || q.pc.Gone?)
    && (q'.parent != q.parent ==> forall p | 0 <= p < |s.procs| :: s.procs[p].pc != WaitChild(j))
    && (forall p | 0 <= p < |s.procs| && ForksNp(s.procs[p].pc, j) ::
          q'.state == USED && (!Resume(s.procs[p].pc).ForkRun? ==> q'.parent == None))
  }

  lemma RecordLock(s: State, s': State, j: nat, q': Proc)
    requires CpuInv(s) && LockInv(s) && ProcMove(s, s', j, q')
    requires OnCpu(s, j) ==> q'.pc == s.procs[j].pc
    ensures CpuInv(s') && LockInv(s')
  {
    assert forall d | 0 <= d < |s.cpus| :: CpuOk(s, d) ==> CpuOk(s', d);
    forall d | 0 <= d < |s.cpus| ensures HeldBy(s', d) == HeldBy(s, d) {
    }
  }

  lemma RecordState(s: State, s': State, j: nat, q': Proc)
    requires StateInv(s) && ProcMove(s, s', j, q') && PlaceOk(s, j, q')
    ensures StateInv(s')
  {
    forall p | 0 <= p < |s'.procs| ensures StateOk(s', p) {
      assert StateOk(s, p);
      assert OnCpu(s', p) == OnCpu(s, p);
    }
  }

  lemma RecordWake(P: Params, s: State, s': State, j: nat, q': Proc)
    requires WakeInv(P, s) && ScanInv(P, s) && ProcMove(s, s', j, q') && RecordOk(s, j, q') && FamilyOk(s, j, q')
    ensures WakeInv(P, s') && ScanInv(P, s')
  {
    forall p | 0 <= p < |s'.procs| ensures WakeOk(P, s', p) {
      assert WakeOk(P, s, p);
      var ch := SleepChan(s'.procs[p], p);
      if ch.Some? {
        if Blocked(P, s, ch.value) {
          assert Blocked(P, s', ch.value);
        } else {
          var r :| 0 <= r < |s.procs| && WakesAt(s.procs[r].pc, ch.value, p);
          assert WakesAt(s'.procs[r].pc, ch.value, p);
        }
      }
    }
    forall r | 0 <= r < |s'.procs| ensures ScanOk(P, s', r) {
      assert ScanOk(P, s, r);
    }
  }

  lemma RecordFamily(P: Params, s: State, s': State, j: nat, q': Proc)
    requires KidInv(P, s) && ExitInv(s) && ScanKidsInv(s)
    requires ProcMove(s, s', j, q') && RecordOk(s, j, q') && FamilyOk(s, j, q')
    ensures KidInv(P, s') && ExitInv(s') && ScanKidsInv(s')
  {
    forall q | 0 <= q < |s'.procs| ensures KidOk(s', q) {
      assert KidOk(s, q);
    }
    forall r | 0 <= r < |s'.procs| ensures ExitOk(s', r) {
      assert ExitOk(s, r);
    }
    forall p | 0 <= p < |s'.procs| ensures ScanKidsOk(s', p) {
      assert ScanKidsOk(s, p);
      assert forall k | NoZombieBelow(s, p, k) :: NoZombieBelow(s', p, k);
    }
  }

  lemma RecordForkOwner(P: Params, s: State, s': State, j: nat, q': Proc)
    requires ForkInv(s) && OwnerInv(s)
    requires ProcMove(s, s', j, q') && RecordOk(s, j, q') && FamilyOk(s, j, q')
    ensures ForkInv(s') && OwnerInv(s')
  {
    forall p | 0 <= p < |s'.procs| ensures ForkOk(s', p) {
      assert ForkOk(s, p);
    }
  }

  /** A change to one process record, control points aside. */
  lemma RecordOnly(P: Params, s: State, s': State, j: nat, q': Proc)
    requires Core(P, s) && ProcMove(s, s', j, q') && PlaceOk(s, j, q') && RecordOk(s, j, q') && FamilyOk(s, j, q')
    ensures Core(P, s')
  {
    RecordLock(s, s', j, q');
    RecordState(s, s', j, q');
    RecordWake(P, s, s', j, q');
    RecordFamily(P, s, s', j, q');
    RecordForkOwner(P, s, s', j, q');
  }

  // ---------------------------------------------------------------------------------------
  // Changes to sleep-locks and the log.

  /** Whoever the change unblocks is about to be reached by a wakeup that has just begun. */
  ghost predicate SharedOk(P: Params, s: State, s': State) {
    && s'.procs == s.procs && s'.cpus == s.cpus && s'.locks == s.locks
    && OwnerInv(s')
    && forall ch: Chan | ch.SleepLockChan? || ch.LogChan? :: Blocked(P, s, ch) ==> Blocked(P, s', ch) || Waker(s, ch, 0)
  }

  lemma SharedOnly(P: Params, s: State, s': State)
    requires Core(P, s) && SharedOk(P, s, s')
    ensures Core(P, s')
  {
    assert forall d | 0 <= d < |s.cpus| :: HeldBy(s', d) == HeldBy(s, d);
    assert forall d | 0 <= d < |s.cpus| :: CpuOk(s, d) ==> CpuOk(s', d);
    assert forall p :: OnCpu(s', p) == OnCpu(s, p);
    assert forall p | 0 <= p < |s.procs| :: StateOk(s, p) ==> StateOk(s', p);
    SharedWake(P, s, s');
    SharedRest(P, s, s');
  }

  lemma SharedWake(P: Params, s: State, s': State)
    requires WakeInv(P, s) && ScanInv(P, s) && SharedOk(P, s, s')
    ensures WakeInv(P, s') && ScanInv(P, s')
  {
    forall p | 0 <= p < |s'.procs| ensures WakeOk(P, s', p) {
      assert WakeOk(P, s, p);
      var ch := SleepChan(s'.procs[p], p);
      if ch.Some? && !Blocked(P, s', ch.value) {
        if Blocked(P, s, ch.value) {
          var r :| 0 <= r < |s.procs| && WakesAt(s.procs[r].pc, ch.value, 0);
          assert WakesAt(s'.procs[r].pc, ch.value, p);
        } else {
          var r :| 0 <= r < |s.procs| && WakesAt(s.procs[r].pc, ch.value, p);
          assert WakesAt(s'.procs[r].pc, ch.value, p);
        }
      }
    }
    assert forall r | 0 <= r < |s.procs| :: ScanOk(P, s, r) ==> ScanOk(P, s', r);
  }

  lemma SharedRest(P: Params, s: State, s': State)
    requires KidInv(P, s) && ExitInv(s) && ScanKidsInv(s) && ForkInv(s) && s'.procs == s.procs
    ensures KidInv(P, s') && ExitInv(s') && ScanKidsInv(s') && ForkInv(s')
  {
    forall p | 0 <= p < |s.procs|
      ensures KidOk(s', p) && ExitOk(s', p) && ForkOk(s', p)
    {
      assert KidOk(s, p) && ExitOk(s, p) && ForkOk(s, p);
    }
    forall p | 0 <= p < |s.procs| ensures ScanKidsOk(s', p) {
      assert ScanKidsOk(s, p);
      assert forall k | NoZombieBelow(s, p, k) :: NoZombieBelow(s', p, k);
    }
  }

  // ---------------------------------------------------------------------------------------
  // Steps of the scheduler.

  ghost predicate SameShared(s: State, s': State) {
    s'.sl == s.sl && s'.ops == s.ops && s'.lhn == s.lhn && s'.commit == s.commit
  }

  /** Invariants that speak of processes only. */
  lemma SameProcs(P: Params, s: State, s': State)
    requires WakeInv(P, s) && ScanInv(P, s) && KidInv(P, s) && ExitInv(s) && ScanKidsInv(s) && ForkInv(s) && OwnerInv(s)
    requires s'.procs == s.procs && SameShared(s, s')
    ensures WakeInv(P, s') && ScanInv(P, s') && KidInv(P, s') && ExitInv(s') && ScanKidsInv(s') && ForkInv(s') &&
            OwnerInv(s')
  {
    var t := s.(cpus := s'.cpus, locks := s'.locks);
    assert t == s';
    SharedRest(P, s, s');
    forall p | 0 <= p < |s.procs| ensures WakeOk(P, s', p) && ScanOk(P, s', p) {
      assert WakeOk(P, s, p) && ScanOk(P, s, p);
      var ch := SleepChan(s.procs[p], p);
      if ch.Some? && !Blocked(P, s, ch.value) {
        var r :| 0 <= r < |s.procs| && WakesAt(s.procs[r].pc, ch.value, p);
        assert WakesAt(s'.procs[r].pc, ch.value, p);
      }
    }
  }

  /** scheduler() moves between looking for a process and holding one's lock. */
  lemma SchedMove(P: Params, s: State, s': State, c: nat, x: Cpu)
    requires Core(P, s) && c < |s.cpus| && !s.cpus[c].at.InProc? && !x.at.InProc?
    requires s'.procs == s.procs && SameShared(s, s') && s'.cpus == s.cpus[c := x]
    requires CpuOk(s', c) && x.proc == None
    requires LockMove(s, s', c, HeldBy(s, c), HeldBy(s', c))
    ensures Core(P, s')
  {
    assert forall d | 0 <= d < |s.cpus| && d != c :: HeldBy(s', d) == HeldBy(s, d) && (CpuOk(s, d) ==> CpuOk(s', d));
    LockMoveKeeps(s, s', c);
    forall p | 0 <= p < |s.procs| ensures StateOk(s', p) {
      assert StateOk(s, p);
      OnCpuSame(s, s', c, p);
    }
    SameProcs(P, s, s');
  }

  lemma OnCpuSame(s: State, s': State, c: nat, p: nat)
    requires c < |s.cpus| == |s'.cpus| && s'.cpus == s.cpus[c := s'.cpus[c]]
    requires (s.cpus[c].at == InProc(p)) == (s'.cpus[c].at == InProc(p))
    ensures OnCpu(s', p) == OnCpu(s, p)
  {
    if OnCpu(s, p) {
      var d :| 0 <= d < |s.cpus| && s.cpus[d].at == InProc(p);
      assert s'.cpus[d].at == InProc(p);
    }
    if OnCpu(s', p) {
      var d :| 0 <= d < |s'.cpus| && s'.cpus[d].at == InProc(p);
      assert s.cpus[d].at == InProc(p);
    }
  }

  /** A CPU holding p->lock in the scheduler is the only one with anything to do with p. */
  lemma HolderIsAlone(s: State, c: nat, p: nat, d: nat)
    requires CpuInv(s) && LockInv(s) && StateInv(s) && p < |s.procs|
    requires c < |s.cpus| && PLock(p) in HeldBy(s, c) && !s.cpus[c].at.InProc?
    requires d < |s.cpus| && d != c && s.procs[p].state == RUNNABLE
    ensures s.cpus[d].proc != Some(p)
  {
    assert CpuOk(s, d) && StateOk(s, p);
    if s.cpus[d].at == SchedBack(p) { Mutex(s, c, d, PLock(p)); }
  }

  lemma NotForked(s: State, j: nat)
    requires ForkInv(s) && j < |s.procs| && s.procs[j].state != USED
    ensures forall p | 0 <= p < |s.procs| :: !ForksNp(s.procs[p].pc, j)
  {
    forall p | 0 <= p < |s.procs| ensures !ForksNp(s.procs[p].pc, j) {
      assert ForkOk(s, p);
    }
  }

  lemma RunRecord(P: Params, s: State, s': State, p: nat)
    requires Core(P, s) && p < |s.procs| && s.procs[p].state == RUNNABLE
    requires s'.procs == s.procs[p := s.procs[p].(state := RUNNING)] && SameShared(s, s')
    ensures WakeInv(P, s') && ScanInv(P, s') && KidInv(P, s') && ExitInv(s') && ScanKidsInv(s') && ForkInv(s') &&
            OwnerInv(s')
  {
    var q' := s.procs[p].(state := RUNNING);
    var t := s.(procs := s.procs[p := q']);
    assert StateOk(s, p);
    NotForked(s, p);
    RecordWake(P, s, t, p, q');
    RecordFamily(P, s, t, p, q');
    RecordForkOwner(P, s, t, p, q');
    SameProcs(P, t, s');
  }

  lemma SchedRunKeeps(P: Params, s: State, c: nat)
    requires Core(P, s) && Enabled(P, s, SchedRun(c))
    ensures Core(P, Next(P, s, SchedRun(c)))
  {
    var s' := Next(P, s, SchedRun(c));
    var p := s.cpus[c].at.p;
    RunRecord(P, s, s', p);
    assert StateOk(s, p) && Parked(s.procs[p], p);
    forall d | 0 <= d < |s.cpus| && d != c ensures s.cpus[d].proc != Some(p) && HeldBy(s', d) == HeldBy(s, d) {
      HolderIsAlone(s, c, p, d);
      assert CpuOk(s, d);
    }
    assert forall d | 0 <= d < |s.cpus| && d != c :: CpuOk(s, d) ==> CpuOk(s', d);
    LockMoveKeeps(s, s', c);
    RunState(s, s', c, p);
  }

  lemma RunState(s: State, s': State, c: nat, p: nat)
    requires StateInv(s) && c < |s.cpus| && !s.cpus[c].at.InProc? && p < |s.procs| && s.procs[p].state == RUNNABLE
    requires s'.procs == s.procs[p := s.procs[p].(state := RUNNING)] && s'.cpus == s.cpus[c := Cpu(Some(p), InProc(p))]
    ensures StateInv(s')
  {
    forall q | 0 <= q < |s'.procs| ensures StateOk(s', q) {
      assert StateOk(s, q);
      if q == p {
        assert s'.cpus[c].at == InProc(p);
      } else {
        OnCpuSame(s, s', c, q);
      }
    }
  }

  /** The thread of p leaves c through sched(), its record becoming q'. */
  lemma ToSchedKeeps(P: Params, s: State, s': State, c: nat, p: nat, q': Proc)
    requires Core(P, s) && c < |s.cpus| && s.cpus[c].at == InProc(p) && p < |s.procs|
    requires Held(s.procs[p].pc, p) == {PLock(p)} && Parked(q', p)
    requires RecordOk(s, p, q') && FamilyOk(s, p, q')
    requires s' == s.(procs := s.procs[p := q'], cpus := s.cpus[c := s.cpus[c].(at := SchedBack(p))])
    ensures Core(P, s')
  {
    var t := s.(procs := s.procs[p := q']);
    RecordWake(P, s, t, p, q');
    RecordFamily(P, s, t, p, q');
    RecordForkOwner(P, s, t, p, q');
    SameProcs(P, t, s');
    forall d | 0 <= d < |s.cpus| && d != c ensures HeldBy(s', d) == HeldBy(s, d) {
      if s.cpus[d].at == InProc(p) { OneCpu(s, c, d, p); }
    }
    assert forall d | 0 <= d < |s.cpus| :: CpuOk(s, d) ==> CpuOk(s', d);
    LockMoveKeeps(s, s', c);
    ToSchedState(s, s', c, p, q');
  }

  lemma ToSchedState(s: State, s': State, c: nat, p: nat, q': Proc)
    requires CpuInv(s) && StateInv(s) && c < |s.cpus| && s.cpus[c].at == InProc(p) && p < |s.procs| && Parked(q', p)
    requires s'.procs == s.procs[p := q'] && s'.cpus == s.cpus[c := s.cpus[c].(at := SchedBack(p))]
    ensures StateInv(s')
  {
    forall q | 0 <= q < |s'.procs| ensures StateOk(s', q) {
      assert StateOk(s, q);
      if q != p {
        OnCpuSame(s, s', c, q);
      } else if OnCpu(s', p) {
        var d :| 0 <= d < |s'.cpus| && s'.cpus[d].at == InProc(p);
        OneCpu(s, c, d, p);
      }
    }
  }

  // ---------------------------------------------------------------------------------------
  // exit.

  /** A thread in exit() that holds wait_lock is the only one moving in the family tree. */
  lemma OthersNotScanning(s: State, c: nat, p: nat, r: nat)
    requires CpuInv(s) && LockInv(s) && StateInv(s)
    requires c < |s.cpus| && s.cpus[c].at == InProc(p) && WaitLock in HeldBy(s, c)
    requires r < |s.procs| && r != p
    ensures !s.procs[r].pc.WaitScan? && !s.procs[r].pc.WaitChild?
    ensures !s.procs[r].pc.ExitLock? && !s.procs[r].pc.ExitBoth?
    ensures s.procs[r].pc.Wake? ==> s.procs[r].pc.k.Lock() != WaitLock
  {
    assert StateOk(s, r);
    if WaitLock in Held(s.procs[r].pc, r) {
      var d :| 0 <= d < |s.cpus| && s.cpus[d].at == InProc(r);
      Mutex(s, c, d, WaitLock);
    }
  }

  /** exit() turns the process into a zombie: its parent has been woken. */
  lemma ZombieKeeps(P: Params, s: State, s': State, c: nat, p: nat)
    requires Core(P, s) && c < |s.cpus| && s.cpus[c].at == InProc(p) && p < |s.procs| && s.procs[p].pc == ExitBoth
    requires s' == s.(procs := s.procs[p := s.procs[p].(state := ZOMBIE, pc := ExitZombie)])
    ensures Core(P, s')
  {
    ZombieLocks(s, s', c, p);
    ZombieWake(P, s, s', c, p);
    ZombieFamily(P, s, s', c, p);
  }

  lemma ZombieLocks(s: State, s': State, c: nat, p: nat)
    requires CpuInv(s) && LockInv(s) && StateInv(s)
    requires c < |s.cpus| && s.cpus[c].at == InProc(p) && p < |s.procs| && s.procs[p].pc == ExitBoth
    requires s' == s.(procs := s.procs[p := s.procs[p].(state := ZOMBIE, pc := ExitZombie)])
    ensures CpuInv(s') && LockInv(s') && StateInv(s')
  {
    assert forall d | 0 <= d < |s.cpus| :: CpuOk(s, d) ==> CpuOk(s', d);
    forall d | 0 <= d < |s.cpus| && d != c ensures HeldBy(s', d) == HeldBy(s, d) {
      if s.cpus[d].at == InProc(p) { OneCpu(s, c, d, p); }
    }
    LockMoveKeeps(s, s', c);
    forall q | 0 <= q < |s'.procs| ensures StateOk(s', q) {
      assert StateOk(s, q);
      assert OnCpu(s', q) == OnCpu(s, q);
    }
  }

  lemma ZombieWake(P: Params, s: State, s': State, c: nat, p: nat)
    requires Core(P, s) && c < |s.cpus| && s.cpus[c].at == InProc(p) && p < |s.procs| && s.procs[p].pc == ExitBoth
    requires s' == s.(procs := s.procs[p := s.procs[p].(state := ZOMBIE, pc := ExitZombie)])
    ensures WakeInv(P, s') && ScanInv(P, s')
  {
    assert ExitOk(s, p) && KidOk(s, p);
    forall q | 0 <= q < |s'.procs| ensures WakeOk(P, s', q) {
      assert WakeOk(P, s, q);
      var ch := SleepChan(s'.procs[q], q);
      if ch.Some? {
        if Blocked(P, s, ch.value) {
          assert ch != Some(ProcChan(q)) || s.procs[p].parent != Some(q);
          assert Blocked(P, s', ch.value);
        } else {
          var r :| 0 <= r < |s.procs| && WakesAt(s.procs[r].pc, ch.value, q);
          assert WakesAt(s'.procs[r].pc, ch.value, q);
        }
      }
    }
    forall r | 0 <= r < |s'.procs| ensures ScanOk(P, s', r) {
      assert ScanOk(P, s, r);
    }
  }

  lemma ZombieFamily(P: Params, s: State, s': State, c: nat, p: nat)
    requires Core(P, s) && c < |s.cpus| && s.cpus[c].at == InProc(p) && p < |s.procs| && s.procs[p].pc == ExitBoth
    requires s' == s.(procs := s.procs[p := s.procs[p].(state := ZOMBIE, pc := ExitZombie)])
    ensures KidInv(P, s') && ExitInv(s') && ScanKidsInv(s') && ForkInv(s') && OwnerInv(s')
  {
    assert StateOk(s, p);
    assert WaitLock in HeldBy(s, c);
    NotForked(s, p);
    forall q | 0 <= q < |s'.procs| ensures KidOk(s', q) && ExitOk(s', q) && ForkOk(s', q) && ScanKidsOk(s', q) {
      assert KidOk(s, q) && ExitOk(s, q) && ForkOk(s, q);
      if q != p { OthersNotScanning(s, c, p, q); }
    }
  }

  /** reparent() hands child j to init and starts waking init. */
  lemma ReparentKeeps(P: Params, s: State, s': State, c: nat, p: nat, j: nat)
    requires Core(P, s) && c < |s.cpus| && s.cpus[c].at == InProc(p) && p < |s.procs|
    requires s.procs[p].pc == ExitReparent(j) && j < |s.procs| && s.procs[j].parent == Some(p)
    requires s' == Goto(s.(procs := s.procs[j := s.procs[j].(parent := Some(P.init))]), p,
                        Wake(ProcChan(P.init), 0, AfterReparent(j + 1)))
    ensures Core(P, s')
  {
    assert KidOk(s, j) && StateOk(s, p) && p != P.init;
    ReparentLocks(P, s, s', c, p, j);
    ReparentWake(P, s, s', c, p, j);
    ReparentFamily(P, s, s', c, p, j);
  }

  lemma ReparentLocks(P: Params, s: State, s': State, c: nat, p: nat, j: nat)
    requires CpuInv(s) && LockInv(s) && StateInv(s) && c < |s.cpus| && s.cpus[c].at == InProc(p) && p < |s.procs|
    requires s.procs[p].pc == ExitReparent(j) && j < |s.procs| && s.procs[j].parent == Some(p)
    requires s' == Goto(s.(procs := s.procs[j := s.procs[j].(parent := Some(P.init))]), p,
                        Wake(ProcChan(P.init), 0, AfterReparent(j + 1)))
    ensures CpuInv(s') && LockInv(s') && StateInv(s')
  {
    var q' := s.procs[j].(parent := Some(P.init));
    var t := s.(procs := s.procs[j := q']);
    ParentLocks(s, t, j, q');
    WakeStartLocks(t, s', c, p, s'.procs[p].pc);
  }

  lemma ParentLocks(s: State, t: State, j: nat, q': Proc)
    requires CpuInv(s) && LockInv(s) && StateInv(s) && j < |s.procs|
    requires q' == s.procs[j].(parent := q'.parent) && s.procs[j].parent.Some? && q'.parent.Some?
    requires t == s.(procs := s.procs[j := q'])
    ensures CpuInv(t) && LockInv(t) && StateInv(t)
  {
    assert StateOk(s, j);
    RecordLock(s, t, j, q');
    RecordState(s, t, j, q');
  }

  lemma WakeStartLocks(s: State, s': State, c: nat, p: nat, pc': PC)
    requires CpuInv(s) && LockInv(s) && StateInv(s) && PcMove(s, s', c, p, pc') && s'.locks == s.locks
    requires s.procs[p].pc.ExitReparent? && pc'.Wake? && pc'.k.AfterReparent?
    ensures CpuInv(s') && LockInv(s') && StateInv(s')
  {
    PcState(s, s', c, p, pc');
    Holder(s, c, WaitLock);
    PcLock(s, s', c, p, pc');
  }

  lemma ReparentWake(P: Params, s: State, s': State, c: nat, p: nat, j: nat)
    requires Core(P, s) && c < |s.cpus| && s.cpus[c].at == InProc(p) && p < |s.procs|
    requires s.procs[p].pc == ExitReparent(j) && j < |s.procs| && s.procs[j].parent == Some(p)
    requires s' == Goto(s.(procs := s.procs[j := s.procs[j].(parent := Some(P.init))]), p,
                        Wake(ProcChan(P.init), 0, AfterReparent(j + 1)))
    ensures WakeInv(P, s') && ScanInv(P, s')
  {
    assert WaitLock in HeldBy(s, c);
    forall q | 0 <= q < |s'.procs| ensures WakeOk(P, s', q) {
      assert WakeOk(P, s, q);
      assert WakesAt(s'.procs[p].pc, ProcChan(P.init), q);
      var ch := SleepChan(s'.procs[q], q);
      if ch.Some? && ch.value != ProcChan(P.init) {
        if Blocked(P, s, ch.value) {
          assert Blocked(P, s', ch.value);
        } else {
          var r :| 0 <= r < |s.procs| && WakesAt(s.procs[r].pc, ch.value, q);
          assert WakesAt(s'.procs[r].pc, ch.value, q);
        }
      }
    }
    forall r | 0 <= r < |s'.procs| ensures ScanOk(P, s', r) {
      assert ScanOk(P, s, r);
      if r != p { OthersNotScanning(s, c, p, r); }
    }
  }

  lemma ReparentFamily(P: Params, s: State, s': State, c: nat, p: nat, j: nat)
    requires Core(P, s) && c < |s.cpus| && s.cpus[c].at == InProc(p) && p < |s.procs|
    requires s.procs[p].pc == ExitReparent(j) && j < |s.procs| && s.procs[j].parent == Some(p) && p != P.init
    requires s' == Goto(s.(procs := s.procs[j := s.procs[j].(parent := Some(P.init))]), p,
                        Wake(ProcChan(P.init), 0, AfterReparent(j + 1)))
    ensures KidInv(P, s') && ExitInv(s') && ScanKidsInv(s') && ForkInv(s') && OwnerInv(s')
  {
    assert WaitLock in HeldBy(s, c);
    forall q | 0 <= q < |s'.procs| ensures KidOk(s', q) && ExitOk(s', q) && ForkOk(s', q) && ScanKidsOk(s', q) {
      assert KidOk(s, q) && ExitOk(s, q) && ForkOk(s, q);
      if q != p { OthersNotScanning(s, c, p, q); }
    }
  }
}
