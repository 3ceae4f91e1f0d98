/** What becomes of the log when a changed buffer is released without log_write, as writei of
    kernel/fs.c does when its copyin fails part of the way. */
module UnloggedRelease {
  import opened Common
  import R = LogReservation
  import opened WriteAheadLog
  import opened LogRefinement

  /** brelse of a changed buffer without log_write, as writei does when its copyin fails. */
  ghost function ReleasedUnlogged(s: State, t: Tid, b: nat): State
    requires b in s.cache
  {
    var u := s.cache[b];
    s.(cache := s.cache[b := u.(refcnt := Less(u.refcnt), users := u.users - {t}, holder := None, dirty := false)])
  }

  /** The log's invariant survives such a release in two cases only. */
  lemma InvariantKept(lay: Layout, s: State, t: Tid, b: nat)
    requires Inv(lay, s) && Holds(s, t, b) && s.cache[b].dirty
    ensures Inv(lay, ReleasedUnlogged(s, t, b)) <==> Pinned(s, b) || s.cache[b].data == s.disk[b]
    ensures Inv(lay, ReleasedUnlogged(s, t, b)) ==> Abs(lay, ReleasedUnlogged(s, t, b)) == Abs(lay, s)
  {
    var s' := ReleasedUnlogged(s, t, b);
    assert BufOk(lay, s, b);
    if Pinned(s, b) || s.cache[b].data == s.disk[b] {
      BufferStep(lay, s, s', b, s'.cache[b]);
    } else {
      assert !BufOk(lay, s', b);
    }
  }

  /** b's buffer, unlocked and in use by these threads, differs from the disk and is in no header. */
  ghost predicate Stale(lay: Layout, s: State, b: nat, users: set<Tid>) {
    && DiskOk(lay, s.disk) && Running(s) && lay.Home(b) && b in s.cache && !Pinned(s, b)
    && s.cache[b] == Buf(s.cache[b].data, true, |users|, users, None, false) && s.cache[b].data != s.disk[b]
  }

  /** A thread that waited for the buffer locks it, reads it and releases it. */
  lemma ReaderLeaves(lay: Layout, r: State, tr: Trace, s: State, b: nat, users: set<Tid>, u: Tid)
    returns (tr': Trace, s': State)
    requires Legal(lay, r, tr) && After(lay, r, tr) == s && Stale(lay, s, b, users) && u in users
    ensures Legal(lay, r, tr') && After(lay, r, tr') == s' && Stale(lay, s', b, users - {u})
    ensures s' == s.(cache := s'.cache) && forall a :: SpecAfter(a, tr') == SpecAfter(a, tr)
  {
    tr', s' := Then(Then(tr, Lock(u, b)), Release(u, b)), Next(lay, Next(lay, s, Lock(u, b)), Release(u, b));
  }

  /** All that used the buffer leave. */
  lemma {:induction false} ReadersLeave(lay: Layout, r: State, b: nat, users: set<Tid>, left: set<Tid>)
    returns (tr: Trace, s: State)
    requires Stale(lay, r, b, users) && left <= users
    ensures Legal(lay, r, tr) && After(lay, r, tr) == s && Stale(lay, s, b, left)
    ensures s == r.(cache := s.cache) && forall a :: SpecAfter(a, tr) == a
    decreases users - left
  {
    if users - left == {} {
      assert forall x | x in users :: x in users - left || x in left;
      assert left == users;
      tr, s := Start, r;
    } else {
      var u :| u in users - left;
      var tr1, s1 := ReadersLeave(lay, r, b, users, left + {u});
      tr, s := ReaderLeaves(lay, r, tr1, s1, b, left + {u}, u);
      assert left + {u} - {u} == left;
    }
  }

  /** Then the buffer is recycled, and what was read is gone. */
  lemma TakenBack(lay: Layout, r: State, b: nat, users: set<Tid>) returns (tr: Trace)
    requires Stale(lay, r, b, users)
    ensures Legal(lay, r, tr) && After(lay, r, tr).disk == r.disk && (forall a :: SpecAfter(a, tr) == a)
    ensures Current(lay, r)[b] == r.cache[b].data != Current(lay, After(lay, r, tr))[b]
  {
    var tr1, s1 := ReadersLeave(lay, r, b, users, {});
    tr := Then(tr1, Recycle(b));
  }

  /**
   After such a release every later run still shows a store with atomic transactions exactly when the
   block is in the log already or the buffer's contents are those of the disk.
   */
  lemma UnloggedExact(lay: Layout, s: State, t: Tid, b: nat, r: State)
    requires Inv(lay, s) && Holds(s, t, b) && s.cache[b].dirty && r == ReleasedUnlogged(s, t, b)
    ensures (forall tr | Legal(lay, r, tr) ::
               DiskOk(lay, After(lay, r, tr).disk) && Abs(lay, After(lay, r, tr)) == SpecAfter(Abs(lay, s), tr))
       <==> Pinned(s, b) || s.cache[b].data == s.disk[b]
  {
    InvariantKept(lay, s, t, b);
    if Pinned(s, b) || s.cache[b].data == s.disk[b] {
      forall tr | Legal(lay, r, tr)
        ensures DiskOk(lay, After(lay, r, tr).disk) && Abs(lay, After(lay, r, tr)) == SpecAfter(Abs(lay, s), tr)
      {
        RunRefines(lay, r, tr);
      }
    } else {
      assert BufOk(lay, s, b);
      var tr := TakenBack(lay, r, b, s.cache[b].users - {t});
      assert Current(lay, s)[b] == s.cache[b].data;
      assert SpecAfter(Abs(lay, s), tr).current[b] != Abs(lay, After(lay, r, tr)).current[b];
    }
  }

  /** The failing case is reached: an operation reads a block, changes it, and releases it unlogged. */
  lemma UpdateLost(lay: Layout, s0: State, t: Tid, b: nat, data: Block)
    returns (tr: Trace, s: State, r: State, tr': Trace)
    requires Inv(lay, s0) && s0.phase.Normal? && t !in s0.core.active && R.CanBegin(lay.p, s0.core)
    requires lay.Home(b) && b !in s0.cache && |data| == lay.words && data != s0.disk[b]
    ensures Legal(lay, s0, tr) && After(lay, s0, tr) == s && Holds(s, t, b) && s.cache[b].dirty
    ensures r == ReleasedUnlogged(s, t, b) && Legal(lay, r, tr') && After(lay, r, tr').disk == r.disk == s0.disk
    ensures Current(lay, r)[b] == data && Current(lay, After(lay, r, tr'))[b] == s0.disk[b]
  {
    assert b !in s0.core.lh by { assert Pinned(s0, b) ==> b in s0.cache; }
    tr, s := Changed(lay, s0, t, b, data);
    r := ReleasedUnlogged(s, t, b);
    tr' := Then(Start, Recycle(b));
  }

  lemma Changed(lay: Layout, s0: State, t: Tid, b: nat, data: Block) returns (tr: Trace, s: State)
    requires s0.phase.Normal? && t !in s0.core.active && R.CanBegin(lay.p, s0.core)
    requires lay.Home(b) && b !in s0.cache && |data| == lay.words
    ensures Legal(lay, s0, tr) && After(lay, s0, tr) == s
    ensures s == s0.(core := R.Begin(s0.core, t), cache := s0.cache[b := Buf(data, true, 1, {t}, Some(t), true)])
  {
    var s1 := s0.(core := R.Begin(s0.core, t));
    var tr1 := GoesOn(lay, s0, Start, s0, BeginOp(t), s1);
    var s2 := s1.(cache := s0.cache[b := Buf([], false, 1, {t}, None, false)]);
    var tr2 := GoesOn(lay, s0, tr1, s1, Get(t, b), s2);
    tr, s := LockedAndChanged(lay, s0, tr2, s2, t, b, data);
    assert s.cache == s0.cache[b := s.cache[b]];
  }

  lemma LockedAndChanged(lay: Layout, s0: State, tr: Trace, s: State, t: Tid, b: nat, data: Block)
    returns (tr': Trace, s': State)
    requires Legal(lay, s0, tr) && After(lay, s0, tr) == s && Running(s) && t in s.core.active && lay.Home(b)
    requires b in s.cache && s.cache[b] == Buf([], false, 1, {t}, None, false) && |data| == lay.words
    ensures Legal(lay, s0, tr') && After(lay, s0, tr') == s'
    ensures s' == s.(cache := s.cache[b := Buf(data, true, 1, {t}, Some(t), true)])
  {
    var s1 := s.(cache := s.cache[b := Buf(View(s, b), true, 1, {t}, Some(t), false)]);
    var tr1 := GoesOn(lay, s0, tr, s, Lock(t, b), s1);
    s' := s1.(cache := s1.cache[b := Buf(data, true, 1, {t}, Some(t), true)]);
    tr' := GoesOn(lay, s0, tr1, s1, Modify(t, b, data), s');
    assert s'.cache == s.cache[b := s'.cache[b]];
  }

  lemma GoesOn(lay: Layout, s0: State, tr: Trace, s: State, e: Event, s': State) returns (tr': Trace)
    requires Legal(lay, s0, tr) && After(lay, s0, tr) == s && Enabled(lay, s, e) && s' == Next(lay, s, e)
    ensures Legal(lay, s0, tr') && After(lay, s0, tr') == s'
  {
    tr' := Then(tr, e);
  }
}
