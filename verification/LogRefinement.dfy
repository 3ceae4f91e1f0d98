/** Every step of the log over the buffer cache is a step of the atomic-transaction machine. */
module LogRefinement {
  import opened Common
  import opened WriteAheadLog
  import R = LogReservation

  /** One step keeps the invariant and is the corresponding step of the specification. */
  ghost predicate Refines(lay: Layout, s: State, e: Event)
    requires Inv(lay, s) && Enabled(lay, s, e)
  {
    var s' := Next(lay, s, e);
    && Inv(lay, s')
    && SpecEnabled(Abs(lay, s), e)
    && Abs(lay, s') == SpecNext(Abs(lay, s), e)
  }

  lemma BeginRefines(lay: Layout, s: State, t: Tid)
    requires Inv(lay, s) && Enabled(lay, s, BeginOp(t))
    ensures Refines(lay, s, BeginOp(t))
  {
    var s' := Next(lay, s, BeginOp(t));
    forall b | b in s'.cache ensures BufOk(lay, s', b) {
      assert BufOk(lay, s, b);
    }
    assert s'.core.active.Keys == s.core.active.Keys + {t};
    assert Inv(lay, s');
    SameCurrent(lay, s, s');
  }

  /** A step of the cache alone that keeps what bread shows. */
  lemma SameViews(lay: Layout, s: State, s': State)
    requires Inv(lay, s) && s'.disk == s.disk && s'.phase == s.phase && s'.core == s.core
    requires CacheOk(lay, s') && (s.phase.Booting? ==> s'.cache == s.cache)
    requires forall x | 0 <= x < |s.disk| :: View(s', x) == View(s, x)
    requires s.phase.Replaying? ==> forall b | b in s'.cache :: s'.cache[b].users == {}
    ensures Inv(lay, s') && Abs(lay, s') == Abs(lay, s)
  {
  }

  /** A step that touches only buffer b and keeps what bread shows of it. */
  lemma BufferStep(lay: Layout, s: State, s': State, b: nat, u: Buf)
    requires Inv(lay, s) && Running(s) && b < lay.nblocks
    requires s' == s.(cache := s.cache[b := u])
    requires BufOk(lay, s', b) && (Pinned(s, b) ==> u.valid)
    requires View(s', b) == View(s, b)
    ensures Inv(lay, s') && Abs(lay, s') == Abs(lay, s)
  {
    assert CacheOk(lay, s') by { BufferKeepsCache(lay, s, s', b, u); }
    SameViews(lay, s, s');
  }

  lemma BufferKeepsCache(lay: Layout, s: State, s': State, b: nat, u: Buf)
    requires CacheOk(lay, s) && b < lay.nblocks && s' == s.(cache := s.cache[b := u])
    requires BufOk(lay, s', b) && (Pinned(s, b) ==> u.valid)
    ensures CacheOk(lay, s')
  {
    forall x | x in s'.cache && x != b ensures BufOk(lay, s', x) {
      assert BufOk(lay, s, x);
    }
  }

  lemma GetRefines(lay: Layout, s: State, t: Tid, b: nat)
    requires Inv(lay, s) && Enabled(lay, s, Get(t, b))
    ensures Refines(lay, s, Get(t, b))
  {
    var s' := Next(lay, s, Get(t, b));
    if b in s.cache { assert BufOk(lay, s, b); }
    BufferStep(lay, s, s', b, s'.cache[b]);
  }

  lemma LockRefines(lay: Layout, s: State, t: Tid, b: nat)
    requires Inv(lay, s) && Enabled(lay, s, Lock(t, b))
    ensures Refines(lay, s, Lock(t, b))
  {
    var s' := Next(lay, s, Lock(t, b));
    assert BufOk(lay, s, b);
    BufferStep(lay, s, s', b, s'.cache[b]);
  }

  lemma ReleaseRefines(lay: Layout, s: State, t: Tid, b: nat)
    requires Inv(lay, s) && Enabled(lay, s, Release(t, b))
    ensures Refines(lay, s, Release(t, b))
  {
    var s' := Next(lay, s, Release(t, b));
    assert BufOk(lay, s, b);
    BufferStep(lay, s, s', b, s'.cache[b]);
  }

  lemma ModifyRefines(lay: Layout, s: State, t: Tid, b: nat, data: Block)
    requires Inv(lay, s) && Enabled(lay, s, Modify(t, b, data))
    ensures Refines(lay, s, Modify(t, b, data))
  {
    var s' := Next(lay, s, Modify(t, b, data));
    assert BufOk(lay, s, b) && BufOk(lay, s', b);
    forall x | x in s'.cache && x != b ensures BufOk(lay, s', x) {
      assert BufOk(lay, s, x);
    }
    assert Inv(lay, s');
    assert forall x | 0 <= x < |s.disk| && x != b :: View(s', x) == View(s, x);
    assert Current(lay, s') == Current(lay, s)[b := data];
  }

  lemma LogWriteRefines(lay: Layout, s: State, t: Tid, b: nat)
    requires Inv(lay, s) && Enabled(lay, s, LogWrite(t, b))
    ensures Refines(lay, s, LogWrite(t, b))
  {
    var s' := Next(lay, s, LogWrite(t, b));
    assert s'.core.active.Keys == s.core.active.Keys;
    LogWriteKeepsCache(lay, s, s', t, b);
    assert Inv(lay, s');
    SameCurrent(lay, s, s');
  }

  lemma LogWriteKeepsCache(lay: Layout, s: State, s': State, t: Tid, b: nat)
    requires Inv(lay, s) && Enabled(lay, s, LogWrite(t, b)) && s' == Next(lay, s, LogWrite(t, b))
    ensures CacheOk(lay, s') && forall x: nat :: View(s', x) == View(s, x)
  {
    assert BufOk(lay, s, b) && BufOk(lay, s', b);
    forall x | x in s'.cache && x != b ensures BufOk(lay, s', x) {
      assert BufOk(lay, s, x);
      assert Pinned(s', x) == Pinned(s, x);
    }
  }

  /** A buffer is recycled only when unreferenced: then it holds nothing the disk does not. */
  lemma RecycledIsClean(lay: Layout, s: State, b: nat)
    requires Inv(lay, s) && Enabled(lay, s, Recycle(b))
    ensures !Pinned(s, b) && View(s, b) == s.disk[b]
  {
    assert BufOk(lay, s, b);
  }

  lemma RecycleKeepsCache(lay: Layout, s: State, b: nat)
    requires CacheOk(lay, s) && b in s.cache && !Pinned(s, b) && View(s, b) == s.disk[b]
    ensures var s' := s.(cache := s.cache - {b});
            CacheOk(lay, s') && forall x | 0 <= x < |s.disk| :: View(s', x) == View(s, x)
  {
    var s' := s.(cache := s.cache - {b});
    forall x | x in s'.cache ensures BufOk(lay, s', x) {
      assert BufOk(lay, s, x);
    }
    assert forall x :: Pinned(s', x) == Pinned(s, x);
  }

  lemma RecycleRefines(lay: Layout, s: State, b: nat)
    requires Inv(lay, s) && Enabled(lay, s, Recycle(b))
    ensures Refines(lay, s, Recycle(b))
  {
    var s' := Next(lay, s, Recycle(b));
    RecycledIsClean(lay, s, b);
    RecycleKeepsCache(lay, s, b);
    SameViews(lay, s, s');
  }

  lemma EndRefines(lay: Layout, s: State, t: Tid)
    requires Inv(lay, s) && Enabled(lay, s, EndOp(t))
    ensures Refines(lay, s, EndOp(t))
  {
    var s' := Next(lay, s, EndOp(t));
    assert s'.core.active.Keys == s.core.active.Keys - {t};
    forall x | x in s'.cache ensures BufOk(lay, s', x) {
      assert BufOk(lay, s, x);
    }
    assert forall x | 0 <= x < |s.disk| :: View(s', x) == View(s, x);
  }

  /** bwrite of a block in the log region. */
  lemma LogRegionWrite(lay: Layout, s: State, s': State, b: nat, v: Block)
    requires Inv(lay, s) && lay.InLog(b) && |v| == lay.words
    requires s'.disk == WriteThrough(s, b, v).disk && s'.cache == WriteThrough(s, b, v).cache
    requires s'.core.active == s.core.active
    requires s'.core.lh == s.core.lh || s'.core.lh == []
    requires forall x :: Pinned(s', x) <==> Pinned(s, x)
    ensures CacheOk(lay, s')
    ensures forall x | lay.Home(x) :: View(s', x) == View(s, x)
  {
    assert !Pinned(s, b);
    forall x | x in s'.cache ensures BufOk(lay, s', x) {
      if x != b { assert BufOk(lay, s, x); }
    }
  }

  lemma LogRegionView(lay: Layout, s: State, b: nat)
    requires Inv(lay, s) && lay.InLog(b)
    ensures View(s, b) == s.disk[b]
  {
    assert !Pinned(s, b);
    if b in s.cache { assert BufOk(lay, s, b); }
  }

  lemma SameCurrent(lay: Layout, s: State, s': State)
    requires Inv(lay, s) && Inv(lay, s') && Running(s) && Running(s')
    requires forall x | lay.Home(x) :: View(s', x) == View(s, x)
    ensures Current(lay, s') == Current(lay, s)
  {
  }

  lemma SameDurable(lay: Layout, disk: Disk, disk': Disk)
    requires DiskOk(lay, disk) && DiskOk(lay, disk')
    requires forall x | lay.Home(x) :: RecoveredBlock(lay, disk', x) == RecoveredBlock(lay, disk, x)
    ensures Durable(lay, disk') == Durable(lay, disk)
  {
  }

  lemma CopyRefines(lay: Layout, s: State)
    requires Inv(lay, s) && Enabled(lay, s, CopyBlock)
    ensures Refines(lay, s, CopyBlock)
  {
    var s' := Next(lay, s, CopyBlock);
    var k := s.phase.k;
    var b := lay.LogBlock(k);
    assert Pinned(s, s.core.lh[k]) && BufOk(lay, s, s.core.lh[k]);
    LogRegionWrite(lay, s, s', b, View(s, s.core.lh[k]));
    assert LogHolds(lay, s', k + 1);
    assert Inv(lay, s');
    SameCurrent(lay, s, s');
    SameDurable(lay, s.disk, s'.disk);
  }

  lemma HeaderBlockWrite(lay: Layout, s: State, lh: seq<nat>)
    requires Inv(lay, s) && LhOk(lay, lh)
    ensures var v := EncodeHeader(View(s, lay.start), lh);
            && |v| == lay.words
            && DiskOk(lay, s.disk[lay.start := v])
            && Header(lay, s.disk[lay.start := v]) == lh
  {
    LogRegionView(lay, s, lay.start);
    HeaderRoundTrip(lay, View(s, lay.start), lh);
  }

  /** The commit point: everything current becomes durable. */
  lemma CommitPoint(lay: Layout, s: State, disk: Disk)
    requires Inv(lay, s) && s.phase.Copying? && LogHolds(lay, s, |s.core.lh|)
    requires DiskOk(lay, disk) && Header(lay, disk) == s.core.lh
    requires forall x | 0 <= x < lay.nblocks && x != lay.start :: disk[x] == s.disk[x]
    ensures Durable(lay, disk) == Current(lay, s)
  {
    forall x | lay.Home(x) ensures RecoveredBlock(lay, disk, x) == View(s, x) {
      if x in s.cache { assert BufOk(lay, s, x); }
    }
  }

  lemma WriteHeadRefines(lay: Layout, s: State)
    requires Inv(lay, s) && Enabled(lay, s, WriteHead)
    ensures Refines(lay, s, WriteHead)
  {
    var s' := Next(lay, s, WriteHead);
    var v := EncodeHeader(View(s, lay.start), s.core.lh);
    HeaderBlockWrite(lay, s, s.core.lh);
    assert s.core.lh[0..] == s.core.lh;
    LogRegionWrite(lay, s, s', lay.start, v);
    assert Inv(lay, s');
    SameCurrent(lay, s, s');
    CommitPoint(lay, s, s'.disk);
  }

  /** Copying one logged block home changes neither the header nor what recovery would
      produce, so installation can be cut short and repeated. */
  lemma HomeWrite(lay: Layout, disk: Disk, k: nat)
    requires DiskOk(lay, disk) && k < |Header(lay, disk)|
    ensures var disk' := disk[Header(lay, disk)[k] := disk[lay.LogBlock(k)]];
            && DiskOk(lay, disk')
            && Header(lay, disk') == Header(lay, disk)
            && Durable(lay, disk') == Durable(lay, disk)
  {
    var disk' := disk[Header(lay, disk)[k] := disk[lay.LogBlock(k)]];
    assert disk'[lay.start] == disk[lay.start];
    assert Header(lay, disk') == Header(lay, disk);
    SameDurable(lay, disk, disk');
  }

  lemma InstallPins(s: State, k: nat)
    requires s.phase == Installing(k) && k < |s.core.lh|
    requires forall i, j | 0 <= i < j < |s.core.lh| :: s.core.lh[i] != s.core.lh[j]
    ensures Pinned(s, s.core.lh[k]) && !Pinned(s.(phase := Installing(k + 1)), s.core.lh[k])
    ensures forall x | x != s.core.lh[k] :: Pinned(s.(phase := Installing(k + 1)), x) == Pinned(s, x)
  {
    assert s.core.lh[k..] == [s.core.lh[k]] + s.core.lh[k + 1..];
  }

  /** The block being installed: its buffer already shows what is written home, and it is
      unpinned. */
  lemma InstalledBuffer(lay: Layout, s: State)
    requires Inv(lay, s) && Enabled(lay, s, InstallBlock)
    ensures var b, s' := s.core.lh[s.phase.k], Next(lay, s, InstallBlock);
            b in s.cache && BufOk(lay, s', b) && View(s', b) == View(s, b) == s'.disk[b]
    ensures s.disk[lay.LogBlock(s.phase.k)] == View(s, lay.LogBlock(s.phase.k))
  {
    var s' := Next(lay, s, InstallBlock);
    var k := s.phase.k;
    var b := s.core.lh[k];
    LogRegionView(lay, s, lay.LogBlock(k));
    InstallPins(s, k);
    assert Pinned(s', b) == Pinned(s.(phase := Installing(k + 1)), b);
    assert BufOk(lay, s, b);
  }

  lemma OtherBuffer(lay: Layout, s: State, s': State, k: nat, x: nat)
    requires x in s.cache && x < |s.disk| && BufOk(lay, s, x) && LhOk(lay, s.core.lh)
    requires s.phase == Installing(k) && k < |s.core.lh| && s'.phase == Installing(k + 1) && s'.core == s.core &&
             x != s.core.lh[k]
    requires |s'.disk| == |s.disk| && s'.disk[x] == s.disk[x] && x in s'.cache && s'.cache[x] == s.cache[x]
    ensures BufOk(lay, s', x)
  {
    InstallPins(s, k);
    assert Pinned(s', x) == Pinned(s.(phase := Installing(k + 1)), x);
  }

  lemma InstalledCache(lay: Layout, s: State, s': State, k: nat, b: nat, v: Block, u: Buf)
    requires CacheOk(lay, s) && LhOk(lay, s.core.lh) && s.phase == Installing(k) && k < |s.core.lh| &&
             b == s.core.lh[k] && b < |s.disk|
    requires s'.phase == Installing(k + 1) && s'.core == s.core && s'.disk == s.disk[b := v] &&
             s'.cache == s.cache[b := u]
    requires BufOk(lay, s', b) && u.valid
    ensures CacheOk(lay, s')
  {
    forall x | x in s'.cache ensures x < lay.nblocks && BufOk(lay, s', x) {
      if x != b {
        assert BufOk(lay, s, x);
        OtherBuffer(lay, s, s', k, x);
      }
    }
    InstallPins(s, k);
    forall i | 0 <= i < |s.core.lh| && Pinned(s', s.core.lh[i])
      ensures s.core.lh[i] in s'.cache && s'.cache[s.core.lh[i]].valid
    {
      assert s.core.lh[i] != b ==> Pinned(s, s.core.lh[i]);
    }
  }

  lemma InstallKeepsCache(lay: Layout, s: State)
    requires Inv(lay, s) && Enabled(lay, s, InstallBlock)
    ensures CacheOk(lay, Next(lay, s, InstallBlock))
  {
    var s' := Next(lay, s, InstallBlock);
    var k := s.phase.k;
    InstalledBuffer(lay, s);
    InstallPins(s, k);
    InstalledCache(lay, s, s', k, s.core.lh[k], s'.disk[s.core.lh[k]], s'.cache[s.core.lh[k]]);
  }

  lemma InstallKeepsPhase(lay: Layout, s: State, s': State, k: nat)
    requires DiskOk(lay, s.disk) && CoreOk(lay, s) && PhaseOk(lay, s)
    requires s.phase == Installing(k) && k < |s.core.lh| && s'.phase == Installing(k + 1) && s'.core == s.core
    requires s'.disk == s.disk[s.core.lh[k] := s.disk[lay.LogBlock(k)]]
    requires forall x | 0 <= x < |s.disk| :: View(s', x) == View(s, x)
    ensures DiskOk(lay, s'.disk) && Durable(lay, s'.disk) == Durable(lay, s.disk)
    ensures CoreOk(lay, s') && PhaseOk(lay, s')
  {
    HomeWrite(lay, s.disk, k);
    forall i | 0 <= i < |s.core.lh|
      ensures s'.disk[lay.LogBlock(i)] == View(s', s.core.lh[i])
      ensures i < k + 1 ==> s'.disk[s.core.lh[i]] == s'.disk[lay.LogBlock(i)]
    {
      assert lay.LogBlock(i) != s.core.lh[k];
    }
  }

  lemma InstallKeepsViews(lay: Layout, s: State)
    requires Inv(lay, s) && Enabled(lay, s, InstallBlock)
    ensures var s' := Next(lay, s, InstallBlock);
            && s'.disk == s.disk[s.core.lh[s.phase.k] := s.disk[lay.LogBlock(s.phase.k)]]
            && forall x | 0 <= x < |s.disk| :: View(s', x) == View(s, x)
  {
    var s' := Next(lay, s, InstallBlock);
    var b := s.core.lh[s.phase.k];
    InstalledBuffer(lay, s);
    forall x | 0 <= x < |s.disk| ensures View(s', x) == View(s, x) {
      if x != b {
        assert s'.disk[x] == s.disk[x] && (x in s'.cache <==> x in s.cache);
      }
    }
  }

  lemma InstallRefines(lay: Layout, s: State)
    requires Inv(lay, s) && Enabled(lay, s, InstallBlock)
    ensures Refines(lay, s, InstallBlock)
  {
    var s' := Next(lay, s, InstallBlock);
    assert CacheOk(lay, s') by { InstallKeepsCache(lay, s); }
    InstallKeepsViews(lay, s);
    InstallKeepsPhase(lay, s, s', s.phase.k);
    assert Inv(lay, s');
    SameCurrent(lay, s, s');
  }

  lemma EmptyHeaderDurable(lay: Layout, s: State, disk: Disk)
    requires Inv(lay, s) && (s.phase.Installing? || s.phase.Replaying?) && s.phase.k == |s.core.lh|
    requires DiskOk(lay, disk) && Header(lay, disk) == []
    requires forall x | 0 <= x < lay.nblocks && x != lay.start :: disk[x] == s.disk[x]
    ensures Durable(lay, disk) == Durable(lay, s.disk)
  {
    SameDurable(lay, s.disk, disk);
  }

  lemma ClearHeadRefines(lay: Layout, s: State)
    requires Inv(lay, s) && Enabled(lay, s, ClearHead)
    ensures Refines(lay, s, ClearHead)
  {
    var s' := Next(lay, s, ClearHead);
    var v := EncodeHeader(View(s, lay.start), []);
    HeaderBlockWrite(lay, s, []);
    LogRegionWrite(lay, s, s', lay.start, v);
    assert Inv(lay, s');
    SameCurrent(lay, s, s');
    EmptyHeaderDurable(lay, s, s'.disk);
  }

  lemma IdleRefines(lay: Layout, s: State, e: Event)
    requires Inv(lay, s) && Enabled(lay, s, e) && (e.NothingToCommit? || e.CommitDone?)
    ensures Refines(lay, s, e)
  {
    var s' := Next(lay, s, e);
    forall x | x in s'.cache ensures BufOk(lay, s', x) {
      assert BufOk(lay, s, x);
    }
    SameCurrent(lay, s, s');
  }

  lemma CrashRefines(lay: Layout, s: State)
    requires Inv(lay, s)
    ensures Refines(lay, s, Crash)
  {
    Rebooted(lay, s.disk);
  }

  lemma Rebooted(lay: Layout, disk: Disk)
    requires DiskOk(lay, disk)
    ensures Inv(lay, State(disk, map[], R.BOOT, Booting))
    ensures Abs(lay, State(disk, map[], R.BOOT, Booting)) == Spec(Durable(lay, disk), Durable(lay, disk), {})
  {
    assert R.BOOT.active.Keys == {};
  }

  lemma ReadHeadRefines(lay: Layout, s: State)
    requires Inv(lay, s) && Enabled(lay, s, ReadHead)
    ensures Refines(lay, s, ReadHead)
  {
  }

  lemma ReplayKeepsCache(lay: Layout, s: State, s': State, b: nat, v: Block)
    requires DiskOk(lay, s.disk) && CacheOk(lay, s) && s.phase.Replaying? && s'.phase.Replaying?
    requires s'.core == s.core && s.core.active == map[] && lay.Home(b) && |v| == lay.words
    requires s'.disk == s.disk[b := v] && s'.cache == s.cache[b := Buf(v, true, 0, {}, None, false)]
    ensures CacheOk(lay, s')
  {
    forall x | x in s'.cache ensures BufOk(lay, s', x) {
      if x != b { assert BufOk(lay, s, x); }
    }
  }

  lemma ReplayRefines(lay: Layout, s: State)
    requires Inv(lay, s) && Enabled(lay, s, ReplayBlock)
    ensures Refines(lay, s, ReplayBlock)
  {
    var s' := Next(lay, s, ReplayBlock);
    var k := s.phase.k;
    LogRegionView(lay, s, lay.LogBlock(k));
    ReplayKeepsCache(lay, s, s', s.core.lh[k], s.disk[lay.LogBlock(k)]);
    ReplayKeepsPhase(lay, s, s', k);
    assert Inv(lay, s');
  }

  lemma ReplayKeepsPhase(lay: Layout, s: State, s': State, k: nat)
    requires DiskOk(lay, s.disk) && CoreOk(lay, s) && PhaseOk(lay, s)
    requires s.phase == Replaying(k) && k < |s.core.lh| && s'.phase == Replaying(k + 1) && s'.core == s.core
    requires s'.disk == s.disk[s.core.lh[k] := s.disk[lay.LogBlock(k)]]
    requires forall b | b in s'.cache :: s'.cache[b].users == {}
    ensures DiskOk(lay, s'.disk) && Durable(lay, s'.disk) == Durable(lay, s.disk)
    ensures CoreOk(lay, s') && PhaseOk(lay, s')
  {
    HomeWrite(lay, s.disk, k);
    assert Installed(lay, s', k + 1);
  }

  lemma ClearReplayedRefines(lay: Layout, s: State)
    requires Inv(lay, s) && Enabled(lay, s, ClearReplayed)
    ensures Refines(lay, s, ClearReplayed)
  {
    var s' := Next(lay, s, ClearReplayed);
    var v := EncodeHeader(View(s, lay.start), []);
    HeaderBlockWrite(lay, s, []);
    LogRegionWrite(lay, s, s', lay.start, v);
    assert Inv(lay, s');
    EmptyHeaderDurable(lay, s, s'.disk);
    CleanCacheShowsDisk(lay, s');
  }

  /** With no operation in progress and an empty header, bread shows the disk. */
  lemma CleanCacheShowsDisk(lay: Layout, s: State)
    requires Inv(lay, s) && (s.phase.Normal? || s.phase.Copying?) && s.core.lh == [] && s.core.active == map[]
    ensures Current(lay, s) == Durable(lay, s.disk)
    ensures forall b: nat | lay.Home(b) :: Durable(lay, s.disk)[b] == s.disk[b]
  {
    forall x | lay.Home(x) ensures View(s, x) == RecoveredBlock(lay, s.disk, x) {
      if x in s.cache { assert BufOk(lay, s, x); }
    }
  }

  lemma StepRefines(lay: Layout, s: State, e: Event)
    requires Inv(lay, s) && Enabled(lay, s, e)
    ensures Refines(lay, s, e)
  {
    match e
    case BeginOp(t) => BeginRefines(lay, s, t);
    case Get(t, b) => GetRefines(lay, s, t, b);
    case Lock(t, b) => LockRefines(lay, s, t, b);
    case Modify(t, b, data) => ModifyRefines(lay, s, t, b, data);
    case LogWrite(t, b) => LogWriteRefines(lay, s, t, b);
    case Release(t, b) => ReleaseRefines(lay, s, t, b);
    case Recycle(b) => RecycleRefines(lay, s, b);
    case EndOp(t) => EndRefines(lay, s, t);
    case CopyBlock => CopyRefines(lay, s);
    case WriteHead => WriteHeadRefines(lay, s);
    case InstallBlock => InstallRefines(lay, s);
    case ClearHead => ClearHeadRefines(lay, s);
    case NothingToCommit => IdleRefines(lay, s, e);
    case CommitDone => IdleRefines(lay, s, e);
    case Crash => CrashRefines(lay, s);
    case ReadHead => ReadHeadRefines(lay, s);
    case ReplayBlock => ReplayRefines(lay, s);
    case ClearReplayed => ClearReplayedRefines(lay, s);
  }

  // ---------------------------------------------------------------------------------------
  // Whole runs.

  /** The events of a run, latest outermost. */
  datatype Trace = Start | Then(before: Trace, e: Event)

  ghost predicate Legal(lay: Layout, s0: State, tr: Trace)
    decreases tr, 0
  {
    tr.Then? ==> Legal(lay, s0, tr.before) && Enabled(lay, After(lay, s0, tr.before), tr.e)
  }

  ghost function After(lay: Layout, s0: State, tr: Trace): State
    requires Legal(lay, s0, tr)
    decreases tr, 1
  {
    match tr
    case Start => s0
    case Then(before, e) => Next(lay, After(lay, s0, before), e)
  }

  lemma {:induction false} RunKeeps(lay: Layout, s0: State, tr: Trace)
    requires Inv(lay, s0) && Legal(lay, s0, tr)
    ensures Inv(lay, After(lay, s0, tr))
  {
    if tr.Then? {
      RunKeeps(lay, s0, tr.before);
      StepRefines(lay, After(lay, s0, tr.before), tr.e);
    }
  }

  /** The run tr from s0 ends in s, and the specification's run in a. */
  ghost predicate Reached(lay: Layout, s0: State, tr: Trace, s: State, a: Spec)
    decreases tr
  {
    match tr
    case Start => Inv(lay, s0) && s == s0 && a == Abs(lay, s0)
    case Then(before, e) =>
      exists s1, a1 ::
        Reached(lay, s0, before, s1, a1) && Enabled(lay, s1, e) && s == Next(lay, s1, e) && a == SpecNext(a1, e)
  }

  lemma {:induction false} ReachedRun(lay: Layout, s0: State, tr: Trace, s: State, a: Spec)
    requires Reached(lay, s0, tr, s, a)
    ensures Inv(lay, s0) && Legal(lay, s0, tr) && After(lay, s0, tr) == s
    ensures Inv(lay, s) && Abs(lay, s) == a
  {
    if tr.Then? {
      var s1, a1 :| Reached(lay, s0, tr.before, s1, a1) && Enabled(lay, s1, tr.e) && s == Next(lay, s1, tr.e) &&
        a == SpecNext(a1, tr.e);
      ReachedRun(lay, s0, tr.before, s1, a1);
      StepRefines(lay, s1, tr.e);
    }
  }

  /** The parts of the invariant that code indexing the disk relies on. */
  lemma Shape(lay: Layout, s0: State, tr: Trace, s: State, a: Spec)
    requires Reached(lay, s0, tr, s, a)
    ensures DiskOk(lay, s.disk) && LhOk(lay, s.core.lh)
  {
    ReachedRun(lay, s0, tr, s, a);
  }

  /** The header block as write_head finds it. */
  lemma HeaderShape(lay: Layout, s0: State, tr: Trace, s: State, a: Spec)
    requires Reached(lay, s0, tr, s, a)
    ensures lay.start < |s.disk| && |s.core.lh| < lay.words
    ensures |View(s, lay.start)| == lay.words && View(s, lay.start) == s.disk[lay.start]
  {
    ReachedRun(lay, s0, tr, s, a);
    LogRegionView(lay, s, lay.start);
  }

  /** In install_trans(0) the destination is still pinned. */
  lemma InstallShape(lay: Layout, s0: State, tr: Trace, s: State, a: Spec)
    requires Reached(lay, s0, tr, s, a) && Enabled(lay, s, InstallBlock)
    ensures var b := s.core.lh[s.phase.k]; b < |s.disk| && b in s.cache && s.cache[b].refcnt > 0
  {
    ReachedRun(lay, s0, tr, s, a);
    var b := s.core.lh[s.phase.k];
    InstallPins(s, s.phase.k);
    assert BufOk(lay, s, b);
  }

  lemma NoOperations(lay: Layout, s0: State, tr: Trace, s: State, a: Spec)
    requires Reached(lay, s0, tr, s, a) && (s.phase.Copying? || s.phase.Replaying?)
    ensures s.core.active == map[] && (s.phase.Replaying? ==> !s.core.committing)
  {
    ReachedRun(lay, s0, tr, s, a);
  }

  lemma NotCommitting(lay: Layout, s0: State, tr: Trace, s: State, a: Spec)
    requires Reached(lay, s0, tr, s, a) && s.phase.Normal?
    ensures !s.core.committing
  {
    ReachedRun(lay, s0, tr, s, a);
  }

  lemma BootShape(lay: Layout, s0: State, tr: Trace, s: State, a: Spec)
    requires Reached(lay, s0, tr, s, a) && s.phase.Booting?
    ensures HeaderOk(lay, View(s, lay.start)) && Header(lay, s.disk) == DecodeHeader(View(s, lay.start))
    ensures s.core == R.BOOT && s.cache == map[]
  {
    ReachedRun(lay, s0, tr, s, a);
  }

  /** Nothing logged and no operation in progress: commit() has nothing to do. */
  lemma NothingLogged(lay: Layout, s0: State, tr: Trace, s: State, a: Spec)
    requires Reached(lay, s0, tr, s, a) && (s.phase.Normal? || s.phase.Copying?)
    requires s.core.lh == [] && s.core.active == map[]
    ensures a.current == a.durable
    ensures |s.disk| == lay.nblocks && a.durable == map b | 0 <= b < lay.nblocks && !lay.InLog(b) :: s.disk[b]
  {
    ReachedRun(lay, s0, tr, s, a);
    CleanCacheShowsDisk(lay, s);
  }

  ghost predicate SpecLegal(a0: Spec, tr: Trace) {
    tr.Then? ==> SpecLegal(a0, tr.before) && SpecEnabled(SpecAfter(a0, tr.before), tr.e)
  }

  ghost function SpecAfter(a0: Spec, tr: Trace): Spec {
    match tr
    case Start => a0
    case Then(before, e) => SpecNext(SpecAfter(a0, before), e)
  }

  /** Every run, with any number of crashes at any points, is a run of the specification. */
  lemma {:induction false} RunRefines(lay: Layout, s0: State, tr: Trace)
    requires Inv(lay, s0) && Legal(lay, s0, tr)
    ensures Inv(lay, After(lay, s0, tr)) && SpecLegal(Abs(lay, s0), tr)
    ensures Abs(lay, After(lay, s0, tr)) == SpecAfter(Abs(lay, s0), tr)
  {
    if tr.Then? {
      RunRefines(lay, s0, tr.before);
      StepRefines(lay, After(lay, s0, tr.before), tr.e);
    }
  }

  ghost predicate Prefix(tr1: Trace, tr: Trace) {
    tr1 == tr || (tr.Then? && Prefix(tr1, tr.before))
  }

  lemma {:induction false} PrefixTrans(tr1: Trace, tr2: Trace, tr3: Trace)
    requires Prefix(tr1, tr2) && Prefix(tr2, tr3)
    ensures Prefix(tr1, tr3)
  {
    if tr2 != tr3 { PrefixTrans(tr1, tr2, tr3.before); }
  }

  /** The run reached a commit point. */
  ghost predicate Commits(tr: Trace) { tr.Then? && (tr.e.WriteHead? || Commits(tr.before)) }

  /** The run up to its last commit point. */
  ghost function LastCommit(tr: Trace): (c: Trace)
    requires Commits(tr)
    ensures Prefix(Then(c, WriteHead), tr)
  {
    if tr.e.WriteHead? then tr.before else LastCommit(tr.before)
  }

  /** The system is up and no operation is in progress: what bread shows is what completed
      operations left. */
  ghost predicate Quiet(s: State) { Running(s) && s.core.active == map[] }

  /** Crash atomicity: at every point of every run, also of a run with crashes, a crash followed
      by recovery yields exactly what the system held just before its last commit point, when
      every operation that had begun had also ended; or what it started with, if none was reached. */
  lemma {:induction false} CrashAtomicity(lay: Layout, s0: State, tr: Trace)
    requires Inv(lay, s0) && Legal(lay, s0, tr)
    ensures Inv(lay, After(lay, s0, tr))
    ensures !Commits(tr) ==> Durable(lay, After(lay, s0, tr).disk) == Durable(lay, s0.disk)
    ensures Commits(tr) ==>
              && Legal(lay, s0, LastCommit(tr))
              && var c := After(lay, s0, LastCommit(tr));
                 Inv(lay, c) && Quiet(c) && Durable(lay, After(lay, s0, tr).disk) == Current(lay, c)
  {
    if tr.Then? {
      CrashAtomicity(lay, s0, tr.before);
      StepRefines(lay, After(lay, s0, tr.before), tr.e);
    }
  }

  /** Between two commit points the recoverable contents do not change: a commit cut short leaves
      the contents before it or the contents after it. */
  lemma BeforeOrAfter(lay: Layout, s: State, e: Event)
    requires Inv(lay, s) && Enabled(lay, s, e)
    ensures DiskOk(lay, Next(lay, s, e).disk)
    ensures var d := Durable(lay, Next(lay, s, e).disk);
            if e.WriteHead? then Quiet(s) && d == Current(lay, s) else d == Durable(lay, s.disk)
  {
    StepRefines(lay, s, e);
  }

  /** Only steps of recovery, and further crashes. */
  ghost predicate RecoveryOnly(tr: Trace) {
    tr.Then? ==>
      && RecoveryOnly(tr.before)
      && (tr.e.Crash? || tr.e.ReadHead? || tr.e.ReplayBlock? || tr.e.ClearReplayed? || tr.e.Recycle?)
  }

  /** However often recovery itself is cut short by a crash, the run that gets through leaves
      exactly the contents that were durable at the first crash. */
  lemma {:induction false} RecoveryIdempotent(lay: Layout, s: State, tr: Trace)
    requires Inv(lay, s)
    requires Legal(lay, Next(lay, s, Crash), tr) && RecoveryOnly(tr)
    ensures var s' := After(lay, Next(lay, s, Crash), tr);
            && Inv(lay, s') && Durable(lay, s'.disk) == Durable(lay, s.disk)
            && s'.core.active == map[]
            && (Running(s') ==> s'.phase.Normal? && s'.core.lh == [])
            && (Running(s') ==> forall b: nat | lay.Home(b) :: s'.disk[b] == Durable(lay, s.disk)[b])
  {
    var s0 := Next(lay, s, Crash);
    var s' := After(lay, s0, tr);
    CrashRefines(lay, s);
    if tr.Then? {
      RecoveryIdempotent(lay, s, tr.before);
      StepRefines(lay, After(lay, s0, tr.before), tr.e);
      if Running(s') { CleanCacheShowsDisk(lay, s'); }
    }
  }

  /** From log_write until its contents are home, a logged block's buffer is there and cannot be
      recycled. */
  lemma LoggedStaysCached(lay: Layout, s: State, i: nat)
    requires Inv(lay, s) && i < |s.core.lh|
    requires s.phase.Normal? || s.phase.Copying? || (s.phase.Installing? && s.phase.k <= i)
    ensures s.core.lh[i] in s.cache && !Enabled(lay, s, Recycle(s.core.lh[i]))
  {
    if s.phase.Installing? { assert s.core.lh[s.phase.k..][i - s.phase.k] == s.core.lh[i]; }
    assert Pinned(s, s.core.lh[i]);
    assert BufOk(lay, s, s.core.lh[i]);
  }

  /** write_log and the commit point see the state left by completed operations only. */
  lemma CommitSeesCompleted(lay: Layout, s: State)
    requires Inv(lay, s) && Enabled(lay, s, WriteHead)
    ensures s.core.active == map[] && !R.CanBegin(lay.p, s.core)
    ensures Durable(lay, Next(lay, s, WriteHead).disk) == Current(lay, s)
  {
    WriteHeadRefines(lay, s);
  }

  // ---------------------------------------------------------------------------------------
  // The panic of log_write.

  /** Every operation of the run is first to log at most d blocks. */
  ghost predicate Bounded(lay: Layout, s0: State, tr: Trace, d: nat)
    requires Legal(lay, s0, tr)
    decreases tr
  {
    tr.Then? ==>
      && Bounded(lay, s0, tr.before, d)
      && (tr.e.LogWrite? ==>
            var c := After(lay, s0, tr.before).core;
            tr.e.t in c.active && (tr.e.b in c.lh || c.active[tr.e.t] < d))
  }

  /** The header and the operations in progress are those of a run of the reservation alone, from
      the last boot. */
  ghost predicate Projects(p: R.Params, d: nat, s: State) {
    match s.phase
    case Cleared => R.Reachable(p, d, R.Finish(s.core))
    case Booting => true
    case Replaying(_) => true
    case _ => R.Reachable(p, d, s.core)
  }

  lemma OneMore(p: R.Params, d: nat, c: R.Core, e: R.Event)
    requires R.Reachable(p, d, c) && R.Enabled(p, d, c, e)
    ensures R.Reachable(p, d, R.Next(p, d, c, e))
  {
    var tr :| R.Reached(p, d, tr, c);
    assert R.Reached(p, d, R.Then(tr, e), R.Next(p, d, c, e));
  }

  lemma StepProjects(lay: Layout, s: State, e: Event, d: nat)
    requires Inv(lay, s) && Enabled(lay, s, e) && Projects(lay.p, d, s)
    requires e.LogWrite? ==> e.b in s.core.lh || s.core.active[e.t] < d
    ensures Projects(lay.p, d, Next(lay, s, e))
  {
    match e
    case BeginOp(t) => OneMore(lay.p, d, s.core, R.BeginOp(t));
    case LogWrite(t, b) => OneMore(lay.p, d, s.core, R.LogWrite(t, b));
    case EndOp(t) => OneMore(lay.p, d, s.core, R.EndOp(t));
    case ClearHead => OneMore(lay.p, d, s.core, R.CommitDone);
    case NothingToCommit => OneMore(lay.p, d, s.core, R.CommitDone);
    case ClearReplayed => assert R.Reached(lay.p, d, R.Start, R.BOOT);
    case _ =>
  }

  lemma {:induction false} RunProjects(lay: Layout, s0: State, tr: Trace, d: nat)
    requires Inv(lay, s0) && Legal(lay, s0, tr) && Bounded(lay, s0, tr, d) && s0.core == R.BOOT
    ensures Projects(lay.p, d, After(lay, s0, tr))
  {
    if tr.Then? {
      RunKeeps(lay, s0, tr.before);
      RunProjects(lay, s0, tr.before, d);
      StepProjects(lay, After(lay, s0, tr.before), tr.e, d);
    } else {
      assert R.Reached(lay.p, d, R.Start, R.BOOT);
    }
  }

  /** In every run of operations that are first to log few enough blocks, with any crashes, no
      operation finds the header too long: log_write's guard never fails. */
  lemma LogWriteNeverPanics(lay: Layout, s0: State, tr: Trace, d: nat)
    requires Inv(lay, s0) && Legal(lay, s0, tr) && Bounded(lay, s0, tr, d) && s0.core == R.BOOT
    requires 1 <= d <= lay.p.maxOp && 2 * lay.p.maxOp <= lay.p.logSize
    requires 2 * (lay.p.maxOp - d) >= 1 && 2 * (lay.p.maxOp - d) >= lay.p.logSize - lay.p.onDisk + 2
    ensures After(lay, s0, tr).core.active != map[] ==> !R.TooBig(lay.p, After(lay, s0, tr).core)
  {
    var s := After(lay, s0, tr);
    RunKeeps(lay, s0, tr);
    RunProjects(lay, s0, tr, d);
    R.ReservationExact(lay.p, d);
    if s.core.active != map[] {
      var t :| t in s.core.active;
      assert R.Reachable(lay.p, d, s.core) && |s.core.active| > 0;
      assert !R.Panics(lay.p, s.core);
    }
  }

  // ---------------------------------------------------------------------------------------
  // The panic of bget.

  /** The blocks whose buffers cannot be recycled. */
  ghost function Referenced(s: State): set<nat> { set b | b in s.cache && s.cache[b].refcnt > 0 }

  /** Those in use by a thread and not held by the log. */
  ghost function InUse(s: State): set<nat> { set b | b in s.cache && s.cache[b].users != {} && !Pinned(s, b) }

  ghost function InLogSet(s: State): set<nat> { set b | b in s.core.lh && Pinned(s, b) }

  lemma {:induction false} SeqSetSize(lh: seq<nat>, x: set<nat>)
    requires forall b | b in x :: b in lh
    ensures |x| <= |lh|
    decreases |lh|
  {
    if x != {} {
      var b := lh[|lh| - 1];
      forall c | c in x - {b} ensures c in lh[..|lh| - 1] {
        var k :| 0 <= k < |lh| && lh[k] == c;
        assert lh[..|lh| - 1][k] == c;
      }
      SeqSetSize(lh[..|lh| - 1], x - {b});
    }
  }

  /** Exactly the buffers in use and those waiting to be installed are referenced. */
  lemma ReferencedAre(lay: Layout, s: State)
    requires Inv(lay, s)
    ensures Referenced(s) == InLogSet(s) + InUse(s) && InLogSet(s) !! InUse(s)
    ensures |Referenced(s)| == |InLogSet(s)| + |InUse(s)| && |InLogSet(s)| <= |s.core.lh|
  {
    forall b ensures b in Referenced(s) <==> b in InLogSet(s) + InUse(s) {
      if b in s.cache { assert BufOk(lay, s, b); }
      if b in InLogSet(s) {
        var i :| 0 <= i < |s.core.lh| && s.core.lh[i] == b;
        assert Pinned(s, s.core.lh[i]);
      }
      if Pinned(s, b) { PinnedInLog(s, b); }
    }
    SeqSetSize(s.core.lh, InLogSet(s));
  }

  lemma PinnedInLog(s: State, b: nat)
    requires Pinned(s, b)
    ensures b in s.core.lh
  {
    if s.phase.Installing? {
      var k :| 0 <= k < |s.core.lh[s.phase.k..]| && s.core.lh[s.phase.k..][k] == b;
      assert s.core.lh[s.phase.k + k] == b;
    }
  }

  /** A buffer stays unreferenced, in any run of operations that are each first to log at most d
      blocks, if the cache has a buffer for each block the log can hold, for each of the other blocks
      that threads use, and one more. */
  lemma BuffersSuffice(lay: Layout, s0: State, tr: Trace, d: nat, nbuf: nat)
    requires Inv(lay, s0) && Legal(lay, s0, tr) && Bounded(lay, s0, tr, d) && s0.core == R.BOOT
    requires 1 <= d <= lay.p.maxOp && 2 * lay.p.maxOp <= lay.p.logSize
    requires R.Worst(lay.p, d) + |InUse(After(lay, s0, tr))| < nbuf
    ensures |Referenced(After(lay, s0, tr))| < nbuf
  {
    var s := After(lay, s0, tr);
    RunKeeps(lay, s0, tr);
    ReferencedAre(lay, s);
    RunProjects(lay, s0, tr, d);
    if s.phase.Normal? || s.phase.Copying? || s.phase.Installing? {
      var r :| R.Reached(lay.p, d, r, s.core);
      R.LengthBound(lay.p, d, r, s.core);
    } else {
      assert InLogSet(s) == {};
    }
  }
}
