/** What the steps of every run of the process protocol may change, and who may change it: sleep-locks, the
    log's operations, and parents (kernel/sleeplock.c, kernel/log.c, kernel/proc.c). */
module ProcHistory {
  import opened Common
  import opened ProcProtocol
  import opened ProcInvariant
  import opened ProcSteps
  import opened ProcPreserve
  import opened ProcTheorems
  import R = LogReservation

  /** e is the next step of process p, which is at pc. */
  predicate StepOf(s: State, e: Event, p: nat, pc: PC) {
    e.Continue? && Running(s, e.c) && s.cpus[e.c].at.p == p && s.procs[p].pc == pc
  }

  // ---------------------------------------------------------------------------------------
  // What a thread's step may change.

  /** The process that a thread at pc is dealing with, if any. */
  function Other(pc: PC): Option<nat> {
    match pc
    case Wake(_, idx, _) => Some(idx)
    case WaitChild(j) => Some(j)
    case ExitReparent(j) => Some(j)
    case ForkScan(j) => Some(j)
    case ForkHold(np) => Some(np)
    case ForkParent(np) => Some(np)
    case ForkRun(np) => Some(np)
    case _ => None
  }

  predicate InFork(pc: PC) { pc.ForkScan? || pc.ForkHold? || pc.ForkParent? || pc.ForkRun? }

  predicate InExit(pc: PC) { pc.ExitReparent? || pc.ExitLock? || pc.ExitBoth? || pc.ExitZombie? || pc.ExitSched? }

  predicate InFamily(pc: PC) { pc.Wake? || pc.WaitScan? || pc.WaitChild? || pc.WaitDone? || InExit(pc) }

  /** A thread's step changes no process but these two, and of itself neither its parent nor whether it has been
      killed. */
  predicate TwoChange(s: State, s': State, p: nat, q: nat)
    requires p < |s.procs| && q < |s.procs|
  {
    && |s'.procs| == |s.procs|
    && (Other(s.procs[p].pc) != Some(q) ==>
          && (q != p ==> s'.procs[q] == s.procs[q])
          && s'.procs[q].parent == s.procs[q].parent && s'.procs[q].killed == s.procs[q].killed)
  }

  /** Sleep-locks and log are as they were. */
  predicate SameTables(s: State, s': State) {
    s'.sl == s.sl && s'.ops == s.ops && s'.lhn == s.lhn && s'.commit == s.commit
  }

  lemma ForkTwo(P: Params, s: State, c: nat, ok: bool, q: nat)
    requires Running(s, c) && CanContinue(s, c) && q < |s.procs| && InFork(s.procs[s.cpus[c].at.p].pc)
    ensures TwoChange(s, Advance(P, s, c, ok), s.cpus[c].at.p, q) && SameTables(s, Advance(P, s, c, ok))
  {
  }

  lemma FamilyTwo(P: Params, s: State, c: nat, ok: bool, q: nat)
    requires Running(s, c) && CanContinue(s, c) && q < |s.procs| && InFamily(s.procs[s.cpus[c].at.p].pc)
    ensures TwoChange(s, Advance(P, s, c, ok), s.cpus[c].at.p, q) && SameTables(s, Advance(P, s, c, ok))
  {
    if InExit(s.procs[s.cpus[c].at.p].pc) { ExitTwo(P, s, c, ok, q); }
  }

  lemma ExitTwo(P: Params, s: State, c: nat, ok: bool, q: nat)
    requires Running(s, c) && CanContinue(s, c) && q < |s.procs| && InExit(s.procs[s.cpus[c].at.p].pc)
    ensures TwoChange(s, Advance(P, s, c, ok), s.cpus[c].at.p, q) && SameTables(s, Advance(P, s, c, ok))
  {
  }

  lemma OnlyTwo(P: Params, s: State, c: nat, ok: bool, q: nat)
    requires Running(s, c) && CanContinue(s, c) && q < |s.procs|
    ensures var p, s' := s.cpus[c].at.p, Advance(P, s, c, ok);
            TwoChange(s, s', p, q) && (InFork(s.procs[p].pc) || InFamily(s.procs[p].pc) ==> SameTables(s, s'))
  {
    var pc := s.procs[s.cpus[c].at.p].pc;
    if InFork(pc) {
      ForkTwo(P, s, c, ok, q);
    } else if InFamily(pc) {
      FamilyTwo(P, s, c, ok, q);
    }
  }

  // ---------------------------------------------------------------------------------------
  // Sleep-locks exclude.

  /** A sleep-lock changes hands only through its holder: it is taken only when it is free, by the process
      that asks for it, and becomes free only in the holder's own releasesleep. */
  lemma SleepLockStep(P: Params, tr: Trace, s: State, e: Event, i: nat)
    requires Reached(P, tr, s) && Enabled(P, s, e)
    ensures var s' := Next(P, s, e);
            && (i in s.sl && i in s'.sl ==> s'.sl[i] == s.sl[i])
            && (i in s.sl && i !in s'.sl ==> StepOf(s, e, s.sl[i], RelClear(i)))
            && (i !in s.sl && i in s'.sl ==> StepOf(s, e, s'.sl[i], AcqCheck(i)))
  {
    assert OwnerInv(s) by { RunInv(P, tr, s); }
    if e.Continue? { OwnLock(P, s, e.c, e.ok, i); }
  }

  lemma OwnLock(P: Params, s: State, c: nat, ok: bool, i: nat)
    requires OwnerInv(s) && Running(s, c) && CanContinue(s, c)
    ensures var s', p := Advance(P, s, c, ok), s.cpus[c].at.p;
            && (i in s.sl && i in s'.sl ==> s'.sl[i] == s.sl[i])
            && (i in s.sl && i !in s'.sl ==> s.sl[i] == p && s.procs[p].pc == RelClear(i))
            && (i !in s.sl && i in s'.sl ==> s'.sl[i] == p && s.procs[p].pc == AcqCheck(i))
  {
    var pc := s.procs[s.cpus[c].at.p].pc;
    if InFork(pc) || InFamily(pc) { OnlyTwo(P, s, c, ok, s.cpus[c].at.p); }
  }

  /** ps are the processes that are back from acquiresleep(i) and have not come to releasesleep's clearing of
      the lock since, after the run tr to s; found from where the processes are, not from the lock. */
  ghost predicate Inside(P: Params, tr: Trace, s: State, i: nat, ps: set<nat>)
    decreases tr
  {
    match tr
    case Start => Boot(P, s) && ps == {}
    case Then(before, e) =>
      exists s1, ps1 :: Inside(P, before, s1, i, ps1) && Enabled(P, s1, e) && s == Next(P, s1, e) &&
                        ps == InsideNext(s1, s, e, i, ps1)
  }

  ghost function InsideNext(s: State, s': State, e: Event, i: nat, ps: set<nat>): set<nat> {
    if !e.Continue? || !Running(s, e.c) then ps
    else
      var p := s.cpus[e.c].at.p;
      if s.procs[p].pc == AcqCheck(i) && p < |s'.procs| && s'.procs[p].pc == Idle then ps + {p}
      else if s.procs[p].pc == RelClear(i) then ps - {p}
      else ps
  }

  /** In every run at most one process is inside a sleep-lock, and it is the one the lock records. */
  lemma {:induction false} SleepLockExcludes(P: Params, tr: Trace, s: State, i: nat, ps: set<nat>)
    requires Inside(P, tr, s, i, ps)
    ensures Reached(P, tr, s) && ps == (if i in s.sl then {s.sl[i]} else {}) && |ps| <= 1
    decreases tr
  {
    if tr.Then? {
      var s1, ps1 :| Inside(P, tr.before, s1, i, ps1) && Enabled(P, s1, tr.e) && s == Next(P, s1, tr.e) &&
                     ps == InsideNext(s1, s, tr.e, i, ps1);
      SleepLockExcludes(P, tr.before, s1, i, ps1);
      InsideStep(P, tr.before, s1, tr.e, i, ps1);
    }
  }

  lemma InsideStep(P: Params, tr: Trace, s: State, e: Event, i: nat, ps: set<nat>)
    requires Reached(P, tr, s) && Enabled(P, s, e) && ps == if i in s.sl then {s.sl[i]} else {}
    ensures var s' := Next(P, s, e); InsideNext(s, s', e, i, ps) == if i in s'.sl then {s'.sl[i]} else {}
  {
    assert OwnerInv(s) by { RunInv(P, tr, s); }
    SleepLockStep(P, tr, s, e, i);
  }

  // ---------------------------------------------------------------------------------------
  // The log's operations and commits.

  /** An operation is admitted by begin_op exactly when no commit runs and the log has room for all of every
      operation's blocks, and is over only by its own end_op, the last of which starts the commit. */
  lemma OpsStep(P: Params, tr: Trace, s: State, e: Event, p: nat)
    requires Reached(P, tr, s) && Enabled(P, s, e)
    ensures var s', room := Next(P, s, e), s.lhn + (|s.ops| + 1) * P.maxOp <= P.logSize;
            && (p !in s.ops && p in s'.ops ==> StepOf(s, e, p, BeginCheck))
            && (StepOf(s, e, p, BeginCheck) ==> (p in s'.ops <==> s.commit == NoCommit && room))
            && (p in s.ops && p !in s'.ops <==> StepOf(s, e, p, EndDec))
            && (StepOf(s, e, p, EndDec) ==> s'.commit == if s'.ops == {} then Writing(p) else NoCommit)
  {
    R.SlotsIsProduct(|s.ops| + 1, P.maxOp);
    if e.Continue? {
      assert LogInv(s) by { RunInv(P, tr, s); }
      OwnOp(P, s, e.c, e.ok, p);
    } else {
      CallOps(P, s, e);
    }
  }

  lemma CallOps(P: Params, s: State, e: Event)
    requires Enabled(P, s, e) && !e.Continue?
    ensures Next(P, s, e).ops == s.ops
  {
  }

  /** Which steps of a thread may change what the log's lock guards. */
  lemma LogFrame(P: Params, s: State, c: nat, ok: bool)
    requires Running(s, c) && CanContinue(s, c)
    ensures var s', pc := Advance(P, s, c, ok), s.procs[s.cpus[c].at.p].pc;
            && s'.lhn == s.lhn && (!pc.BeginCheck? && !pc.EndDec? ==> s'.ops == s.ops)
            && (!pc.EndDec? && !pc.CommitFin? ==> s'.commit == s.commit)
  {
    OnlyTwo(P, s, c, ok, s.cpus[c].at.p);
  }

  lemma OwnOp(P: Params, s: State, c: nat, ok: bool, p: nat)
    requires LogInv(s) && Running(s, c) && CanContinue(s, c)
    ensures var s', q, pc := Advance(P, s, c, ok), s.cpus[c].at.p, s.procs[s.cpus[c].at.p].pc;
            && (p !in s.ops && p in s'.ops ==> p == q && pc == BeginCheck)
            && (p == q && pc == BeginCheck ==> (p in s'.ops <==> s.commit == NoCommit && !TooFull(P, s)))
            && (p in s.ops && p !in s'.ops <==> p == q && pc == EndDec)
            && (p == q && pc == EndDec ==> s'.commit == if s'.ops == {} then Writing(p) else NoCommit)
  {
    var pc := s.procs[s.cpus[c].at.p].pc;
    if pc.BeginCheck? {
      assert Advance(P, s, c, ok).ops
          == if !s.commit.NoCommit? || TooFull(P, s) then s.ops else s.ops + {s.cpus[c].at.p};
    } else if !pc.EndDec? {
      LogFrame(P, s, c, ok);
    }
  }

  /** While a commit runs no operation is in progress, and none begins; it passes from writing to written to
      over only by steps of the process that runs it; and the log's length changes only in an operation, by
      one, or when a commit has written it, to nothing. */
  lemma CommitStep(P: Params, tr: Trace, s: State, e: Event)
    requires Reached(P, tr, s) && Enabled(P, s, e)
    ensures var s' := Next(P, s, e);
            && (s.commit != NoCommit ==> s.ops == {} == s'.ops)
            && (s.commit.Writing? && s'.commit != s.commit ==> s'.commit == Written(s.commit.p) && s'.lhn == 0)
            && (s.commit.Written? ==>
                  s'.commit == if StepOf(s, e, s.commit.p, CommitFin) then NoCommit else s.commit)
            && (s'.lhn != s.lhn ==> (s'.lhn == s.lhn + 1 && s.ops != {}) || (s'.lhn == 0 && s.commit.Writing?))
  {
    assert LogInv(s) by { RunInv(P, tr, s); }
    if e.Continue? { OwnCommit(P, s, e.c, e.ok); }
  }

  lemma OwnCommit(P: Params, s: State, c: nat, ok: bool)
    requires LogInv(s) && Running(s, c) && CanContinue(s, c)
    ensures var s', q, pc := Advance(P, s, c, ok), s.cpus[c].at.p, s.procs[s.cpus[c].at.p].pc;
            && s'.lhn == s.lhn && (s.commit != NoCommit ==> s'.ops == {})
            && (s.commit.Writing? ==> s'.commit == s.commit)
            && (s.commit.Written? ==> s'.commit == if s.commit.p == q && pc == CommitFin then NoCommit else s.commit)
  {
    var pc := s.procs[s.cpus[c].at.p].pc;
    if !pc.BeginCheck? && !pc.EndDec? && !pc.CommitFin? { LogFrame(P, s, c, ok); }
  }

  // ---------------------------------------------------------------------------------------
  // Parents.

  /** How the parent of q may go from was to now in a step of process p. */
  predicate NewParent(P: Params, s: State, p: nat, q: nat, was: Option<nat>, now: Option<nat>)
    requires p < |s.procs| && q < |s.procs|
  {
    match s.procs[p].pc
    case ForkParent(np) => np == q && was == None && now == Some(p)
    case WaitChild(j) => j == q && was == Some(p) && now == None && s.procs[q].state == ZOMBIE
    case ExitReparent(j) => j == q && was == Some(p) && now == Some(P.init)
    case _ => false
  }

  /** A process gets a parent from fork, which is the process that forks; loses it only by being freed, exited,
      in that parent's wait; and gets another only when that one exits, which is init. */
  lemma ParentStep(P: Params, tr: Trace, s: State, e: Event, q: nat)
    requires Reached(P, tr, s) && Enabled(P, s, e) && q < |s.procs|
    ensures var s', was := Next(P, s, e), s.procs[q].parent;
            && |s'.procs| == |s.procs|
            && (s'.procs[q].parent != was ==>
                  e.Continue? && NewParent(P, s, s.cpus[e.c].at.p, q, was, s'.procs[q].parent))
  {
    if e.Continue? {
      assert ForkInv(s) && ScanKidsInv(s) by { RunInv(P, tr, s); }
      OwnKids(P, s, e.c, e.ok, q);
    } else {
      CallParents(P, s, e, q);
    }
  }

  lemma CallParents(P: Params, s: State, e: Event, q: nat)
    requires Enabled(P, s, e) && !e.Continue? && q < |s.procs|
    ensures |Next(P, s, e).procs| == |s.procs| && Next(P, s, e).procs[q].parent == s.procs[q].parent
  {
  }

  lemma OwnKids(P: Params, s: State, c: nat, ok: bool, q: nat)
    requires ForkInv(s) && ScanKidsInv(s) && Running(s, c) && CanContinue(s, c) && q < |s.procs|
    ensures var p, s', was := s.cpus[c].at.p, Advance(P, s, c, ok), s.procs[q].parent;
            && |s'.procs| == |s.procs|
            && (s'.procs[q].parent != was ==> NewParent(P, s, p, q, was, s'.procs[q].parent))
  {
    OnlyTwo(P, s, c, ok, q);
    assert ForkOk(s, s.cpus[c].at.p) && ScanKidsOk(s, s.cpus[c].at.p);
  }

  /** Process p is at the end of a fork of np, or will be back there after a yield. */
  predicate AtForkEnd(pc: PC, np: nat) { Resume(pc) == ForkRun(np) }

  /** A thread's step leaves another where it is, unless fork claims it or it is freed. */
  lemma OthersStay(P: Params, s: State, c: nat, ok: bool, p: nat)
    requires Running(s, c) && CanContinue(s, c) && p < |s.procs| && p != s.cpus[c].at.p
    ensures var s' := Advance(P, s, c, ok);
            && |s'.procs| == |s.procs|
            && (s'.procs[p].pc == s.procs[p].pc || s'.procs[p].pc.ForkRet? || s'.procs[p].pc.Fresh?)
  {
    OnlyTwo(P, s, c, ok, p);
  }

  lemma OwnForkEnd(P: Params, s: State, c: nat, ok: bool, np: nat)
    requires Running(s, c) && CanContinue(s, c)
    ensures var p, s' := s.cpus[c].at.p, Advance(P, s, c, ok);
            && |s'.procs| == |s.procs|
            && (AtForkEnd(s'.procs[p].pc, np) ==> AtForkEnd(s.procs[p].pc, np) || s.procs[p].pc == ForkParent(np))
  {
    OnlyTwo(P, s, c, ok, s.cpus[c].at.p);
    if InFamily(s.procs[s.cpus[c].at.p].pc) { FamilyStays(P, s, c, ok); }
  }

  lemma FamilyStays(P: Params, s: State, c: nat, ok: bool)
    requires Running(s, c) && CanContinue(s, c) && InFamily(s.procs[s.cpus[c].at.p].pc)
    ensures var p, s' := s.cpus[c].at.p, Advance(P, s, c, ok);
            p < |s'.procs| && Resume(s'.procs[p].pc) == s'.procs[p].pc && !s'.procs[p].pc.ForkRun?
  {
    if InExit(s.procs[s.cpus[c].at.p].pc) { ExitStays(P, s, c, ok); }
  }

  /** A thread in exit stays in it, and one that is gone is not back. */
  lemma ExitStays(P: Params, s: State, c: nat, ok: bool)
    requires Running(s, c) && CanContinue(s, c) && InExit(s.procs[s.cpus[c].at.p].pc)
    ensures var p, s' := s.cpus[c].at.p, Advance(P, s, c, ok);
            p < |s'.procs| && (InExit(s'.procs[p].pc) || s'.procs[p].pc.Gone? || s'.procs[p].pc.Wake?)
  {
  }

  /** How a process comes to the end of fork. */
  lemma ForkEndFrom(P: Params, s: State, e: Event, p: nat, np: nat)
    requires Enabled(P, s, e) && p < |s.procs|
    ensures var s' := Next(P, s, e);
            && |s'.procs| == |s.procs|
            && (AtForkEnd(s'.procs[p].pc, np) ==> AtForkEnd(s.procs[p].pc, np) || StepOf(s, e, p, ForkParent(np)))
  {
    if e.Continue? {
      if s.cpus[e.c].at.p == p {
        OwnForkEnd(P, s, e.c, e.ok, np);
      } else {
        OthersStay(P, s, e.c, e.ok, p);
      }
    }
  }

  ghost predicate ForkChild(s: State, p: nat, np: nat) {
    p < |s.procs| && AtForkEnd(s.procs[p].pc, np) ==> np < |s.procs| && s.procs[np].parent == Some(p)
  }

  lemma ForkChildStep(P: Params, tr: Trace, s: State, e: Event, p: nat, np: nat)
    requires Reached(P, tr, s) && Enabled(P, s, e) && p < |s.procs| && ForkChild(s, p, np)
    ensures ForkChild(Next(P, s, e), p, np)
  {
    ForkEndFrom(P, s, e, p, np);
    if AtForkEnd(s.procs[p].pc, np) { ForkChildStays(P, tr, s, e, p, np); }
  }

  lemma ForkChildStays(P: Params, tr: Trace, s: State, e: Event, p: nat, np: nat)
    requires Reached(P, tr, s) && Enabled(P, s, e) && p < |s.procs| && AtForkEnd(s.procs[p].pc, np)
    requires np < |s.procs| && s.procs[np].parent == Some(p)
    ensures np < |Next(P, s, e).procs| && Next(P, s, e).procs[np].parent == Some(p)
  {
    assert s.procs[np].state == USED by {
      RunInv(P, tr, s);
      assert ForkOk(s, p);
    }
    ParentStep(P, tr, s, e, np);
  }

  lemma {:induction false} RunForkChild(P: Params, tr: Trace, s: State, p: nat, np: nat)
    requires Reached(P, tr, s)
    ensures ForkChild(s, p, np)
    decreases tr
  {
    if tr.Then? {
      var s1 :| Reached(P, tr.before, s1) && Enabled(P, s1, tr.e) && s == Next(P, s1, tr.e);
      RunForkChild(P, tr.before, s1, p, np);
      if p < |s1.procs| {
        ForkChildStep(P, tr.before, s1, tr.e, p, np);
      } else {
        SameNumber(P, s1, tr.e);
      }
    }
  }

  lemma SameNumber(P: Params, s: State, e: Event)
    requires Enabled(P, s, e)
    ensures |Next(P, s, e).procs| == |s.procs|
  {
    if e.Continue? { OnlyTwo(P, s, e.c, e.ok, s.cpus[e.c].at.p); }
  }

  /** fork makes a child of its own runnable. */
  lemma ForksOwnChild(P: Params, tr: Trace, s: State, e: Event, p: nat, np: nat)
    requires Reached(P, tr, s) && Enabled(P, s, e) && StepOf(s, e, p, ForkRun(np))
    ensures np < |s.procs| && np != p && s.procs[np].state == USED && s.procs[np].parent == Some(p)
    ensures Next(P, s, e).procs == s.procs[np := s.procs[np].(state := RUNNABLE)][p := s.procs[p].(pc := Idle)]
  {
    RunForkChild(P, tr, s, p, np);
    assert s.procs[np].state == USED && np != p by {
      RunInv(P, tr, s);
      assert ForkOk(s, p) && StateOk(s, p);
    }
    ForkRuns(P, s, e.c, e.ok, p, np);
  }

  lemma ForkRuns(P: Params, s: State, c: nat, ok: bool, p: nat, np: nat)
    requires AtPc(s, c, p, ForkRun(np)) && CanContinue(s, c) && np != p
    ensures np < |s.procs|
    ensures Advance(P, s, c, ok).procs == s.procs[np := s.procs[np].(state := RUNNABLE)][p := s.procs[p].(pc := Idle)]
  {
  }

  /** Numbers that show the parents to form a tree with init at its root. */
  ghost predicate Ranked(P: Params, s: State, b: seq<nat>) {
    && |b| == |s.procs| && P.init < |b| && b[P.init] == 0
    && (forall q | 0 <= q < |b| && q != P.init :: b[q] > 0)
    && (forall q | 0 <= q < |b| && s.procs[q].parent.Some? :: RankOk(s, b, q))
  }

  ghost predicate RankOk(s: State, b: seq<nat>, q: nat)
    requires q < |b| == |s.procs| && s.procs[q].parent.Some?
  {
    s.procs[q].parent.value < |b| && b[s.procs[q].parent.value] < b[q]
  }

  /** In every run, no process is its own ancestor, and init has no parent. */
  lemma {:induction false} ParentsAreTree(P: Params, tr: Trace, s: State) returns (b: seq<nat>)
    requires Reached(P, tr, s)
    ensures Ranked(P, s, b)
    decreases tr
  {
    if tr.Start? {
      b := seq(|s.procs|, q => if q == P.init then 0 else 1);
    } else {
      var s1 :| Reached(P, tr.before, s1) && Enabled(P, s1, tr.e) && s == Next(P, s1, tr.e);
      var b1 := ParentsAreTree(P, tr.before, s1);
      b := RankStep(P, tr.before, s1, tr.e, b1);
    }
  }

  lemma RankStep(P: Params, tr: Trace, s: State, e: Event, b: seq<nat>) returns (b': seq<nat>)
    requires Reached(P, tr, s) && Enabled(P, s, e) && Ranked(P, s, b)
    ensures Ranked(P, Next(P, s, e), b')
  {
    SameNumber(P, s, e);
    if e.Continue? && s.procs[s.cpus[e.c].at.p].pc.ForkParent? {
      var p := s.cpus[e.c].at.p;
      b' := b[s.procs[p].pc.np := b[p] + 1];
      ForkRank(P, tr, s, e, b, p, s.procs[p].pc.np, b');
    } else {
      b' := b;
      var s' := Next(P, s, e);
      forall q | 0 <= q < |b| && s'.procs[q].parent.Some? ensures RankOk(s', b, q) {
        ParentStep(P, tr, s, e, q);
        assert s.procs[q].parent.Some? && RankOk(s, b, q);
      }
    }
  }

  /** A new child has no children yet. */
  lemma ForkRank(P: Params, tr: Trace, s: State, e: Event, b: seq<nat>, p: nat, np: nat, b': seq<nat>)
    requires Reached(P, tr, s) && Enabled(P, s, e) && Ranked(P, s, b) && StepOf(s, e, p, ForkParent(np))
    requires np < |b| && b' == b[np := b[p] + 1]
    ensures Ranked(P, Next(P, s, e), b')
  {
    SameNumber(P, s, e);
    var s' := Next(P, s, e);
    assert np != p && np != P.init && s.procs[np].state == USED by { NewChild(P, tr, s, e.c, p, np); }
    forall q | 0 <= q < |b| && s'.procs[q].parent.Some? ensures RankOk(s', b', q) {
      ParentStep(P, tr, s, e, q);
      if q != np {
        assert s.procs[q].parent.Some? && RankOk(s, b, q);
        assert s.procs[q].parent.value != np by { assert KidOk(s, q) by { RunInv(P, tr, s); } }
      }
    }
  }

  lemma NewChild(P: Params, tr: Trace, s: State, c: nat, p: nat, np: nat)
    requires Reached(P, tr, s) && AtPc(s, c, p, ForkParent(np))
    ensures np < |s.procs| && np != p && np != P.init && s.procs[np].state == USED
  {
    RunInv(P, tr, s);
    assert ForkOk(s, p) && StateOk(s, p);
  }

  // ---------------------------------------------------------------------------------------
  // wait.

  /** Process p has a child among the first j. */
  ghost predicate HasKid(s: State, p: nat, j: nat) {
    exists q :: 0 <= q < |s.procs| && q < j && s.procs[q].parent == Some(p)
  }

  /** Where the thread of p may be just before it is at WaitScan(j, kids). */
  predicate ScanFrom(s: State, p: nat, j: nat, kids: bool)
    requires p < |s.procs|
  {
    match s.procs[p].pc
    case WaitScan(j', kids') => j' + 1 == j <= |s.procs| && kids' == kids && s.procs[j'].parent != Some(p)
    case WaitChild(j') => j' + 1 == j && kids
    case _ => j == 0 && !kids
  }

  lemma OwnScan(P: Params, s: State, c: nat, ok: bool, j: nat, kids: bool)
    requires Running(s, c) && CanContinue(s, c)
    ensures var p, s' := s.cpus[c].at.p, Advance(P, s, c, ok);
            |s'.procs| == |s.procs| && (s'.procs[p].pc == WaitScan(j, kids) ==> ScanFrom(s, p, j, kids))
  {
    OnlyTwo(P, s, c, ok, s.cpus[c].at.p);
    if InFamily(s.procs[s.cpus[c].at.p].pc) { FamilyScan(P, s, c, ok, j, kids); }
  }

  lemma FamilyScan(P: Params, s: State, c: nat, ok: bool, j: nat, kids: bool)
    requires Running(s, c) && CanContinue(s, c) && InFamily(s.procs[s.cpus[c].at.p].pc)
    ensures var p, s' := s.cpus[c].at.p, Advance(P, s, c, ok);
            p < |s'.procs| && (s'.procs[p].pc == WaitScan(j, kids) ==> ScanFrom(s, p, j, kids))
  {
    if InExit(s.procs[s.cpus[c].at.p].pc) { ExitStays(P, s, c, ok); }
  }

  lemma ComesToScan(P: Params, s: State, e: Event, p: nat, j: nat, kids: bool)
    requires Enabled(P, s, e) && p < |s.procs|
    ensures var s' := Next(P, s, e);
            && |s'.procs| == |s.procs|
            && (s'.procs[p].pc == WaitScan(j, kids) ==>
                  s.procs[p].pc == WaitScan(j, kids) || ScanFrom(s, p, j, kids))
  {
    if e.Continue? {
      if s.cpus[e.c].at.p == p {
        OwnScan(P, s, e.c, e.ok, j, kids);
      } else {
        OthersStay(P, s, e.c, e.ok, p);
      }
    }
  }

  /** While a process scans its children, it neither gets one nor loses one that has not exited. */
  lemma KidsStay(P: Params, tr: Trace, s: State, e: Event, p: nat, q: nat, s': State)
    requires Reached(P, tr, s) && Enabled(P, s, e) && s' == Next(P, s, e) && |s'.procs| == |s.procs|
    requires p < |s.procs| && q < |s.procs| && (s.procs[p].pc.WaitScan? || s.procs[p].pc.WaitChild?)
    requires s'.procs[p].pc.WaitScan?
    ensures s'.procs[q].parent == Some(p) <==> s.procs[q].parent == Some(p)
  {
    ParentStep(P, tr, s, e, q);
    if s'.procs[q].parent != s.procs[q].parent {
      if s.procs[s.cpus[e.c].at.p].pc.ExitReparent? { OneHasWaitLock(P, tr, s, e.c, p); }
      if s.procs[s.cpus[e.c].at.p].pc.WaitChild? { ReapingReturns(P, s, e.c, e.ok); }
    }
  }

  /** wait returns once it has found an exited child. */
  lemma ReapingReturns(P: Params, s: State, c: nat, ok: bool)
    requires Running(s, c) && CanContinue(s, c) && s.procs[s.cpus[c].at.p].pc.WaitChild?
    requires s.procs[s.procs[s.cpus[c].at.p].pc.j].state == ZOMBIE
    ensures var p, s' := s.cpus[c].at.p, Advance(P, s, c, ok); p < |s'.procs| && s'.procs[p].pc == WaitDone
  {
  }

  lemma OneHasWaitLock(P: Params, tr: Trace, s: State, c: nat, p: nat)
    requires Reached(P, tr, s) && Running(s, c) && WaitLock in HeldBy(s, c)
    requires p < |s.procs| && (s.procs[p].pc.WaitScan? || s.procs[p].pc.WaitChild?)
    ensures s.cpus[c].at.p == p
  {
    RunInv(P, tr, s);
    assert StateOk(s, p);
    var d :| 0 <= d < |s.cpus| && s.cpus[d].at == InProc(p);
    assert WaitLock in HeldBy(s, d);
    Mutex(s, c, d, WaitLock);
  }

  /** wait's scan knows whether it has met a child. */
  ghost predicate KidsKnown(s: State, p: nat) {
    p < |s.procs| && s.procs[p].pc.WaitScan? ==> (s.procs[p].pc.kids <==> HasKid(s, p, s.procs[p].pc.j))
  }

  lemma SameKids(s: State, s': State, p: nat, j: nat)
    requires |s'.procs| == |s.procs|
    requires forall q: nat | q < |s.procs| :: s'.procs[q].parent == Some(p) <==> s.procs[q].parent == Some(p)
    ensures HasKid(s', p, j) <==> HasKid(s, p, j)
  {
    if HasKid(s, p, j) {
      var q :| 0 <= q < |s.procs| && q < j && s.procs[q].parent == Some(p);
      assert s'.procs[q].parent == Some(p);
    }
    if HasKid(s', p, j) {
      var q :| 0 <= q < |s'.procs| && q < j && s'.procs[q].parent == Some(p);
      assert s.procs[q].parent == Some(p);
    }
  }

  lemma KidsAmong(P: Params, tr: Trace, s: State, e: Event, p: nat, j: nat, s': State)
    requires Reached(P, tr, s) && Enabled(P, s, e) && s' == Next(P, s, e) && |s'.procs| == |s.procs|
    requires p < |s.procs| && (s.procs[p].pc.WaitScan? || s.procs[p].pc.WaitChild?) && s'.procs[p].pc.WaitScan?
    ensures HasKid(s', p, j) <==> HasKid(s, p, j)
  {
    forall q: nat | q < |s.procs| ensures s'.procs[q].parent == Some(p) <==> s.procs[q].parent == Some(p) {
      KidsStay(P, tr, s, e, p, q, s');
    }
    SameKids(s, s', p, j);
  }

  lemma OneMoreKid(s: State, p: nat, j: nat)
    requires j < |s.procs|
    ensures HasKid(s, p, j + 1) <==> HasKid(s, p, j) || s.procs[j].parent == Some(p)
  {
  }

  lemma KidsKnownStep(P: Params, tr: Trace, s: State, e: Event, p: nat)
    requires Reached(P, tr, s) && Enabled(P, s, e) && p < |s.procs| && KidsKnown(s, p)
    ensures KidsKnown(Next(P, s, e), p)
  {
    var s' := Next(P, s, e);
    SameNumber(P, s, e);
    if s'.procs[p].pc.WaitScan? {
      var j, kids := s'.procs[p].pc.j, s'.procs[p].pc.kids;
      ComesToScan(P, s, e, p, j, kids);
      match s.procs[p].pc
      case WaitScan(j', _) =>
        KidsAmong(P, tr, s, e, p, j, s');
        if j' + 1 == j <= |s.procs| { OneMoreKid(s, p, j'); }
      case WaitChild(j') =>
        KidsAmong(P, tr, s, e, p, j, s');
        assert ScanKidsOk(s, p) by { RunInv(P, tr, s); }
        OneMoreKid(s, p, j');
      case _ =>
    }
  }

  lemma {:induction false} ScanKnows(P: Params, tr: Trace, s: State, p: nat)
    requires Reached(P, tr, s)
    ensures KidsKnown(s, p)
    decreases tr
  {
    if tr.Then? {
      var s1 :| Reached(P, tr.before, s1) && Enabled(P, s1, tr.e) && s == Next(P, s1, tr.e);
      ScanKnows(P, tr.before, s1, p);
      if p < |s1.procs| {
        KidsKnownStep(P, tr.before, s1, tr.e, p);
      } else {
        SameNumber(P, s1, tr.e);
      }
    }
  }

  /** When its scan has found no exited child, wait returns if and only if the process has no child or has been
      killed; otherwise it goes to sleep. */
  lemma WaitGivesUp(P: Params, tr: Trace, s: State, e: Event, p: nat, j: nat, kids: bool)
    requires Reached(P, tr, s) && Enabled(P, s, e) && StepOf(s, e, p, WaitScan(j, kids)) && j >= |s.procs|
    ensures var s' := Next(P, s, e);
            && p < |s'.procs|
            && s'.procs[p].pc == if s.procs[p].killed || !HasKid(s, p, |s.procs|) then WaitDone else SleepEnter(InWait)
  {
    ScanKnows(P, tr, s, p);
  }

  /** When wait comes to an exited child, which is its own and off its CPU for good, it frees it and returns,
      unless the status cannot be delivered, when it returns and the child stays; any other child it leaves. */
  lemma WaitReaps(P: Params, tr: Trace, s: State, e: Event, p: nat, j: nat)
    requires Reached(P, tr, s) && Enabled(P, s, e) && StepOf(s, e, p, WaitChild(j))
    ensures j < |s.procs| && s.procs[j].parent == Some(p) && j != p
    ensures var s', dead := Next(P, s, e), s.procs[j].state == ZOMBIE;
            && |s'.procs| == |s.procs| && (dead ==> s.procs[j].pc == Gone)
            && s'.procs[j] == (if dead && e.ok then FREED else s.procs[j])
            && s'.procs[p].pc == (if dead then WaitDone else WaitScan(j + 1, true))
  {
    OwnExited(P, tr, s, e.c, p, j);
  }

  lemma OwnExited(P: Params, tr: Trace, s: State, c: nat, p: nat, j: nat)
    requires Reached(P, tr, s) && AtPc(s, c, p, WaitChild(j))
    ensures j < |s.procs| && s.procs[j].parent == Some(p) && j != p
    ensures s.procs[j].state == ZOMBIE ==> s.procs[j].pc == Gone
  {
    var b := ParentsAreTree(P, tr, s);
    assert ScanKidsOk(s, p) by { RunInv(P, tr, s); }
    assert RankOk(s, b, j);
    if s.procs[j].state == ZOMBIE { ReapedIsOffCpu(P, tr, s, c, p, j); }
  }

  // ---------------------------------------------------------------------------------------
  // kill.

  /** A thread at pc may be freeing process q: exited, in wait, or after fork has failed. */
  predicate Frees(pc: PC, q: nat) { pc == WaitChild(q) || pc == ForkHold(q) }

  /** A process is marked killed by kill alone, which leaves it not asleep, and stays so until it is freed. */
  lemma KilledStep(P: Params, tr: Trace, s: State, e: Event, q: nat)
    requires Reached(P, tr, s) && Enabled(P, s, e) && q < |s.procs|
    ensures var s' := Next(P, s, e);
            && |s'.procs| == |s.procs|
            && (e.Kill? && e.j == q ==> s'.procs[q].killed && s'.procs[q].state != SLEEPING)
            && (s'.procs[q].killed && !s.procs[q].killed ==> e.Kill? && e.j == q)
            && (s.procs[q].killed && !s'.procs[q].killed ==>
                  e.Continue? && Frees(s.procs[s.cpus[e.c].at.p].pc, q))
  {
    if e.Continue? { OwnKilled(P, s, e.c, e.ok, q); }
  }

  lemma OwnKilled(P: Params, s: State, c: nat, ok: bool, q: nat)
    requires Running(s, c) && CanContinue(s, c) && q < |s.procs|
    ensures var p, s' := s.cpus[c].at.p, Advance(P, s, c, ok);
            && |s'.procs| == |s.procs| && (s'.procs[q].killed ==> s.procs[q].killed)
            && (s'.procs[q].killed != s.procs[q].killed ==> Frees(s.procs[p].pc, q))
  {
    OnlyTwo(P, s, c, ok, q);
  }

  /** Process p has been killed and sleeps in wait for a child to exit, or is about to. */
  ghost predicate Deaf(s: State, p: nat) {
    p < |s.procs| && s.procs[p].killed && SleepChan(s.procs[p], p) == Some(ProcChan(p))
  }

  lemma OwnSleep(P: Params, s: State, c: nat, ok: bool)
    requires Running(s, c) && CanContinue(s, c)
    ensures var p, s' := s.cpus[c].at.p, Advance(P, s, c, ok);
            && |s'.procs| == |s.procs|
            && (SleepChan(s'.procs[p], p) == Some(ProcChan(p)) ==>
                  || SleepChan(s.procs[p], p) == Some(ProcChan(p))
                  || (s.procs[p].pc.WaitScan? && !s.procs[p].killed))
  {
    OnlyTwo(P, s, c, ok, s.cpus[c].at.p);
    var pc := s.procs[s.cpus[c].at.p].pc;
    if InExit(pc) {
      ExitStays(P, s, c, ok);
    } else if InFork(pc) {
      ForkStays(P, s, c, ok);
    }
  }

  lemma ForkStays(P: Params, s: State, c: nat, ok: bool)
    requires Running(s, c) && CanContinue(s, c) && InFork(s.procs[s.cpus[c].at.p].pc)
    ensures var p, s' := s.cpus[c].at.p, Advance(P, s, c, ok);
            p < |s'.procs| && (InFork(s'.procs[p].pc) || s'.procs[p].pc.Idle?)
  {
  }

  lemma OtherSleep(P: Params, s: State, c: nat, ok: bool, p: nat)
    requires Running(s, c) && CanContinue(s, c) && p < |s.procs| && p != s.cpus[c].at.p
    ensures var s' := Advance(P, s, c, ok);
            && |s'.procs| == |s.procs|
            && (SleepChan(s'.procs[p], p).Some? ==> SleepChan(s'.procs[p], p) == SleepChan(s.procs[p], p))
  {
    OnlyTwo(P, s, c, ok, p);
  }

  lemma CallSleep(P: Params, s: State, e: Event, p: nat)
    requires Enabled(P, s, e) && !e.Continue? && p < |s.procs|
    ensures var s' := Next(P, s, e);
            && |s'.procs| == |s.procs|
            && (SleepChan(s'.procs[p], p).Some? ==> SleepChan(s'.procs[p], p) == SleepChan(s.procs[p], p))
            && (s'.procs[p].killed && !s.procs[p].killed ==> e.Kill? && e.j == p)
  {
  }

  /** A process that has decided to sleep, and taken its own lock, cannot be killed before it sleeps. */
  lemma NotKilledBetween(P: Params, tr: Trace, s: State, c: nat, p: nat)
    requires Reached(P, tr, s) && Enabled(P, s, Kill(c, p))
    ensures p < |s.procs| && !s.procs[p].pc.SleepBoth? && !s.procs[p].pc.SleepOnly?
  {
    RunInv(P, tr, s);
    assert StateOk(s, p);
    if s.procs[p].pc.SleepBoth? || s.procs[p].pc.SleepOnly? {
      var d :| 0 <= d < |s.cpus| && s.cpus[d].at == InProc(p);
      Holder(s, d, PLock(p));
    }
  }

  lemma ThreadHeard(P: Params, s: State, c: nat, ok: bool, p: nat)
    requires Running(s, c) && CanContinue(s, c) && p < |s.procs| && !Deaf(s, p)
    ensures !Deaf(Advance(P, s, c, ok), p)
  {
    OwnKilled(P, s, c, ok, p);
    if s.cpus[c].at.p == p {
      OwnSleep(P, s, c, ok);
    } else {
      OtherSleep(P, s, c, ok, p);
    }
  }

  lemma CallHeard(P: Params, s: State, e: Event, p: nat)
    requires Enabled(P, s, e) && !e.Continue? && p < |s.procs| && !Deaf(s, p) && !(e.Kill? && e.j == p)
    ensures !Deaf(Next(P, s, e), p)
  {
    CallSleep(P, s, e, p);
  }

  lemma KillHeard(P: Params, tr: Trace, s: State, c: nat, p: nat)
    requires Reached(P, tr, s) && Enabled(P, s, Kill(c, p)) && !Deaf(s, p)
    ensures Deaf(Next(P, s, Kill(c, p)), p) <==> s.procs[p].pc == SleepEnter(InWait)
  {
    assert !s.procs[p].pc.SleepBoth? && !s.procs[p].pc.SleepOnly? by { NotKilledBetween(P, tr, s, c, p); }
    var q := s.procs[p];
    var q' := q.(killed := true, state := if q.state == SLEEPING then RUNNABLE else q.state);
    KilledChan(q, q', p);
    assert Next(P, s, Kill(c, p)).procs[p] == q';
  }

  lemma KilledChan(q: Proc, q': Proc, p: nat)
    requires q' == q.(killed := true, state := if q.state == SLEEPING then RUNNABLE else q.state)
    requires !q.pc.SleepBoth? && !q.pc.SleepOnly?
    ensures SleepChan(q', p) == Some(ProcChan(p)) <==> q.pc == SleepEnter(InWait)
  {
  }

  /** kill reaches a process in wait, if and only if it does not come just after wait has looked whether the
      process has been killed and before sleep has taken its lock. */
  lemma KillReaches(P: Params, tr: Trace, s: State, e: Event, p: nat)
    requires Reached(P, tr, s) && Enabled(P, s, e) && p < |s.procs| && !Deaf(s, p)
    ensures Deaf(Next(P, s, e), p) <==> e.Kill? && e.j == p && s.procs[p].pc == SleepEnter(InWait)
  {
    if e.Continue? {
      ThreadHeard(P, s, e.c, e.ok, p);
    } else if e.Kill? && e.j == p {
      KillHeard(P, tr, s, e.c, p);
    } else {
      CallHeard(P, s, e, p);
    }
  }
}
