/**
 The redo log of kernel/log.c over the buffer cache of kernel/bio.c, as a transition system.

 The disk is persistent, everything else is volatile.  Every single-block disk write is one
 step, a crash may come between any two steps (also during recovery), and threads interleave
 freely: operations write, others read beside them and beside a commit, and unreferenced
 buffers are recycled.  The main result is a refinement: every run is a run of a machine that
 holds two copies of the disk, `current` and `durable`, where a commit copies the first to the
 second while no operation is in progress and a crash copies the second to the first.
 */
module WriteAheadLog {
  import opened Common
  import R = LogReservation

  type Tid = R.Tid
  /** A disk block, as 32-bit words. */
  type Block = seq<nat>
  type Disk = seq<Block>

  // ---------------------------------------------------------------------------------------
  // Disk layout and the on-disk header.

  /** log.start, the sizes, words per block and blocks on the device. */
  datatype Layout = Layout(start: nat, p: R.Params, words: nat, nblocks: nat) {

    predicate InLog(b: nat) { start <= b < start + p.onDisk }

    predicate Home(b: nat) { b < nblocks && !InLog(b) }

    /** The header fits in a block (checked by initlog) and the log in the device. */
    predicate Valid() { p.logSize + 1 < words && 0 < p.onDisk && start + p.onDisk <= nblocks }

    function LogBlock(i: nat): nat { start + 1 + i }
  }

  predicate LhOk(lay: Layout, lh: seq<nat>) {
    && |lh| <= lay.p.logSize && |lh| < lay.p.onDisk
    && (forall i | 0 <= i < |lh| :: lay.Home(lh[i]))
    && (forall i, j | 0 <= i < j < |lh| :: lh[i] != lh[j])
  }

  /** What write_head leaves in the header block: words beyond the entries keep their value. */
  function EncodeHeader(was: Block, lh: seq<nat>): Block {
    [|lh|] + lh + if |lh| < |was| then was[1 + |lh|..] else []
  }

  function DecodeHeader(blk: Block): seq<nat> {
    if 0 < |blk| && 1 + blk[0] <= |blk| then blk[1..1 + blk[0]] else []
  }

  predicate HeaderOk(lay: Layout, blk: Block) {
    && |blk| == lay.words && 0 < |blk| && 1 + blk[0] <= |blk|
    && LhOk(lay, DecodeHeader(blk))
  }

  predicate DiskOk(lay: Layout, disk: Disk) {
    && lay.Valid()
    && |disk| == lay.nblocks
    && (forall b | 0 <= b < |disk| :: |disk[b]| == lay.words)
    && HeaderOk(lay, disk[lay.start])
  }

  function BlockAt(disk: Disk, b: nat): Block {
    if b < |disk| then disk[b] else []
  }

  function Store(disk: Disk, b: nat, v: Block): Disk {
    if b < |disk| then disk[b := v] else disk
  }

  function Header(lay: Layout, disk: Disk): seq<nat> {
    DecodeHeader(BlockAt(disk, lay.start))
  }

  lemma HeaderRoundTrip(lay: Layout, was: Block, lh: seq<nat>)
    requires |was| == lay.words && lay.Valid() && LhOk(lay, lh)
    ensures HeaderOk(lay, EncodeHeader(was, lh)) && DecodeHeader(EncodeHeader(was, lh)) == lh
  {
    var blk := EncodeHeader(was, lh);
    assert blk[1..1 + |lh|] == lh;
  }

  /** Position of a block in a header. */
  function Index(lh: seq<nat>, b: nat): (i: nat)
    requires b in lh
    ensures i < |lh| && lh[i] == b
  {
    if lh[0] == b then 0 else 1 + Index(lh[1..], b)
  }

  /** What recovery leaves in home block b. */
  function RecoveredBlock(lay: Layout, disk: Disk, b: nat): Block
    requires DiskOk(lay, disk) && b < lay.nblocks
  {
    var lh := Header(lay, disk);
    if b in lh then disk[lay.LogBlock(Index(lh, b))] else disk[b]
  }

  type Homes = map<nat, Block>

  /** The home blocks a crash now would leave after recovery. */
  function Durable(lay: Layout, disk: Disk): Homes
    requires DiskOk(lay, disk)
  {
    map b | 0 <= b < lay.nblocks && !lay.InLog(b) :: RecoveredBlock(lay, disk, b)
  }

  // ---------------------------------------------------------------------------------------
  // State.

  /** A buffer: refcnt counts the threads between bget and brelse, plus one while log.c pins
      it.  `users`, `dirty` (changed since the holder's last log_write) record who is using it. */
  datatype Buf = Buf(data: Block, valid: bool, refcnt: nat, users: set<Tid>, holder: Option<Tid>, dirty: bool)

  /** Where the thread running commit() or recover_from_log() is. */
  datatype Phase =
    | Normal
    | Copying(k: nat)     // in write_log
    | Installing(k: nat)  // in install_trans(0), the header is on disk
    | Cleared             // commit() done, `committing` still set
    | Booting             // before read_head
    | Replaying(k: nat)   // in install_trans(1)

  datatype State = State(disk: Disk, cache: map<nat, Buf>, core: R.Core, phase: Phase)

  /** Is b in the header and still waiting to be written home? */
  predicate Pinned(s: State, b: nat) {
    match s.phase
    case Normal => b in s.core.lh
    case Copying(_) => b in s.core.lh
    case Installing(k) => k <= |s.core.lh| && b in s.core.lh[k..]
    case _ => false
  }

  /** What bread shows of block b. */
  function View(s: State, b: nat): Block {
    if b in s.cache && s.cache[b].valid then s.cache[b].data else BlockAt(s.disk, b)
  }

  predicate BufOk(lay: Layout, s: State, b: nat)
    requires b in s.cache && b < |s.disk|
  {
    var u := s.cache[b];
    && u.refcnt == |u.users| + (if Pinned(s, b) then 1 else 0)
    && (u.holder.Some? ==> u.holder.value in u.users && u.valid)
    && (u.dirty ==> u.holder.Some? && u.holder.value in s.core.active && lay.Home(b))
    && (lay.InLog(b) ==> u.users == {})
    && (u.valid ==> |u.data| == lay.words)
    && (u.valid && !u.dirty && !Pinned(s, b) ==> u.data == s.disk[b])
  }

  predicate CacheOk(lay: Layout, s: State) {
    && |s.disk| == lay.nblocks
    && (forall b | b in s.cache :: b < lay.nblocks && BufOk(lay, s, b))
    && (forall i | 0 <= i < |s.core.lh| && Pinned(s, s.core.lh[i]) ::
          s.core.lh[i] in s.cache && s.cache[s.core.lh[i]].valid)
  }

  predicate CoreOk(lay: Layout, s: State) {
    && LhOk(lay, s.core.lh)
    && match s.phase
       case Normal => !s.core.committing
       case Copying(k) => s.core.committing && s.core.active == map[] && k <= |s.core.lh|
       case Installing(k) => s.core.committing && s.core.active == map[] && k <= |s.core.lh|
       case Cleared => s.core == R.Core([], map[], true)
       case Booting => s.core == R.BOOT && s.cache == map[]
       case Replaying(k) => s.core.active == map[] && !s.core.committing && k <= |s.core.lh|
  }

  /** The log holds what the header's blocks should become. */
  predicate LogHolds(lay: Layout, s: State, n: nat)
    requires DiskOk(lay, s.disk) && LhOk(lay, s.core.lh) && n <= |s.core.lh|
  {
    forall i | 0 <= i < n :: s.disk[lay.LogBlock(i)] == View(s, s.core.lh[i])
  }

  predicate Installed(lay: Layout, s: State, n: nat)
    requires DiskOk(lay, s.disk) && LhOk(lay, s.core.lh) && n <= |s.core.lh|
  {
    forall i | 0 <= i < n :: s.disk[s.core.lh[i]] == s.disk[lay.LogBlock(i)]
  }

  predicate PhaseOk(lay: Layout, s: State)
    requires DiskOk(lay, s.disk) && CoreOk(lay, s)
  {
    match s.phase
    case Normal => Header(lay, s.disk) == []
    case Copying(k) => Header(lay, s.disk) == [] && LogHolds(lay, s, k)
    case Installing(k) => Header(lay, s.disk) == s.core.lh && LogHolds(lay, s, |s.core.lh|) && Installed(lay, s, k)
    case Cleared => Header(lay, s.disk) == []
    case Booting => true
    case Replaying(k) =>
      && Header(lay, s.disk) == s.core.lh && Installed(lay, s, k)
      && (forall b | b in s.cache :: s.cache[b].users == {})
  }

  predicate Inv(lay: Layout, s: State) {
    DiskOk(lay, s.disk) && CoreOk(lay, s) && CacheOk(lay, s) && PhaseOk(lay, s)
  }

  // ---------------------------------------------------------------------------------------
  // Steps.

  datatype Event =
    | BeginOp(t: Tid)
    | Get(t: Tid, b: nat)                    // bget: find or recycle a buffer, take a reference
    | Lock(t: Tid, b: nat)                   // acquiresleep, and bread's disk read if not valid
    | Modify(t: Tid, b: nat, data: Block)    // the holder, inside an operation, changes the data
    | LogWrite(t: Tid, b: nat)
    | Release(t: Tid, b: nat)                // brelse
    | Recycle(b: nat)                        // bget takes the buffer away from block b
    | EndOp(t: Tid)
    | CopyBlock                              // one iteration of write_log
    | WriteHead                              // commit's first write_head: the commit point
    | InstallBlock                           // one iteration of install_trans(0)
    | ClearHead                              // commit's lh.n = 0 and second write_head
    | NothingToCommit                        // commit() with an empty header
    | CommitDone                             // end_op clears `committing`
    | Crash
    | ReadHead
    | ReplayBlock                            // one iteration of install_trans(1)
    | ClearReplayed

  predicate Unlocked(s: State, b: nat) { b in s.cache ==> s.cache[b].holder.None? }

  predicate Running(s: State) { s.phase.Normal? || s.phase.Copying? || s.phase.Installing? || s.phase.Cleared? }

  predicate Holds(s: State, t: Tid, b: nat) { b in s.cache && s.cache[b].holder == Some(t) }

  /** Guards: the conditions the code waits for or checks, and what its comments ask of
      callers (modify only a locked home block inside an operation, log_write before brelse). */
  predicate Enabled(lay: Layout, s: State, e: Event) {
    match e
    case BeginOp(t) => s.phase.Normal? && t !in s.core.active && R.CanBegin(lay.p, s.core)
    case Get(t, b) => Running(s) && lay.Home(b) && (b in s.cache ==> t !in s.cache[b].users)
    case Lock(t, b) => Running(s) && b in s.cache && t in s.cache[b].users && Unlocked(s, b)
    case Modify(t, b, data) => t in s.core.active && Holds(s, t, b) && lay.Home(b) && |data| == lay.words
    case LogWrite(t, b) =>
      t in s.core.active && Holds(s, t, b) && lay.Home(b) && !R.TooBig(lay.p, s.core) && s.phase.Normal?
    case Release(t, b) => Holds(s, t, b) && !s.cache[b].dirty
    case Recycle(b) => b in s.cache && s.cache[b].refcnt == 0
    case EndOp(t) =>
      && s.phase.Normal? && t in s.core.active
      && forall b | b in s.cache :: t !in s.cache[b].users
    case CopyBlock => s.phase.Copying? && s.phase.k < |s.core.lh| && Unlocked(s, s.core.lh[s.phase.k])
    case WriteHead => s.phase.Copying? && s.phase.k == |s.core.lh| > 0
    case InstallBlock => s.phase.Installing? && s.phase.k < |s.core.lh| && Unlocked(s, s.core.lh[s.phase.k])
    case ClearHead => s.phase.Installing? && s.phase.k == |s.core.lh|
    case NothingToCommit => s.phase.Copying? && |s.core.lh| == 0
    case CommitDone => s.phase.Cleared?
    case Crash => true
    case ReadHead => s.phase.Booting?
    case ReplayBlock => s.phase.Replaying? && s.phase.k < |s.core.lh|
    case ClearReplayed => s.phase.Replaying? && s.phase.k == |s.core.lh|
  }

  /** bwrite of block b, leaving the buffer cached and unreferenced. */
  function WriteThrough(s: State, b: nat, v: Block): State {
    s.(disk := Store(s.disk, b, v), cache := s.cache[b := Buf(v, true, 0, {}, None, false)])
  }

  const UNUSED_BUF := Buf([], false, 0, {}, None, false)

  function Less(n: nat): nat { if n == 0 then 0 else n - 1 }

  function Next(lay: Layout, s: State, e: Event): State
    requires Enabled(lay, s, e)
  {
    match e
    case BeginOp(t) => s.(core := R.Begin(s.core, t))
    case Get(t, b) =>
      var u := if b in s.cache then s.cache[b] else UNUSED_BUF;
      s.(cache := s.cache[b := u.(refcnt := u.refcnt + 1, users := u.users + {t})])
    case Lock(t, b) =>
      s.(cache := s.cache[b := s.cache[b].(data := View(s, b), valid := true, holder := Some(t))])
    case Modify(t, b, data) =>
      s.(cache := s.cache[b := s.cache[b].(data := data, dirty := true)])
    case LogWrite(t, b) =>
      var u := s.cache[b];
      var pins := if b in s.core.lh then 0 else 1;
      s.(core := R.Append(s.core, t, b), cache := s.cache[b := u.(dirty := false, refcnt := u.refcnt + pins)])
    case Release(t, b) =>
      var u := s.cache[b];
      s.(cache := s.cache[b := u.(refcnt := Less(u.refcnt), users := u.users - {t}, holder := None)])
    case Recycle(b) => s.(cache := s.cache - {b})
    case EndOp(t) =>
      var core := R.End(s.core, t);
      s.(core := core, phase := if core.committing then Copying(0) else Normal)
    case CopyBlock =>
      var k := s.phase.k;
      WriteThrough(s, lay.LogBlock(k), View(s, s.core.lh[k])).(phase := Copying(k + 1))
    case WriteHead =>
      WriteThrough(s, lay.start, EncodeHeader(View(s, lay.start), s.core.lh)).(phase := Installing(0))
    case InstallBlock =>
      var k := s.phase.k;
      var b := s.core.lh[k];
      var v := View(s, lay.LogBlock(k));
      var u := if b in s.cache then s.cache[b] else UNUSED_BUF;
      s.(disk := Store(s.disk, b, v), cache := s.cache[b := u.(data := v, refcnt := Less(u.refcnt))],
        phase := Installing(k + 1))
    case ClearHead =>
      WriteThrough(s, lay.start, EncodeHeader(View(s, lay.start), [])).(core := s.core.(lh := []), phase := Cleared)
    case NothingToCommit => s.(phase := Cleared)
    case CommitDone => s.(core := R.Finish(s.core), phase := Normal)
    case Crash => State(s.disk, map[], R.BOOT, Booting)
    case ReadHead => s.(core := R.Core(Header(lay, s.disk), map[], false), phase := Replaying(0))
    case ReplayBlock =>
      var k := s.phase.k;
      WriteThrough(s, s.core.lh[k], View(s, lay.LogBlock(k))).(phase := Replaying(k + 1))
    case ClearReplayed =>
      WriteThrough(s, lay.start, EncodeHeader(View(s, lay.start), [])).(core := R.BOOT, phase := Normal)
  }

  // ---------------------------------------------------------------------------------------
  // The machine it implements: transactions applied atomically.

  datatype Spec = Spec(durable: Homes, current: Homes, ops: set<Tid>)

  predicate SpecEnabled(a: Spec, e: Event) {
    match e
    case BeginOp(t) => t !in a.ops
    case Modify(t, b, _) => t in a.ops && b in a.current
    case EndOp(t) => t in a.ops
    case WriteHead => a.ops == {}   // a commit never sees an operation in progress
    case _ => true
  }

  function SpecNext(a: Spec, e: Event): Spec {
    match e
    case BeginOp(t) => a.(ops := a.ops + {t})
    case Modify(_, b, data) => a.(current := a.current[b := data])
    case EndOp(t) => a.(ops := a.ops - {t})
    case WriteHead => a.(durable := a.current)
    case Crash => a.(current := a.durable, ops := {})
    case _ => a
  }

  /** What every thread sees through bread; during recovery, what recovery will produce. */
  function Current(lay: Layout, s: State): Homes
    requires DiskOk(lay, s.disk)
  {
    if Running(s) then map b | 0 <= b < lay.nblocks && !lay.InLog(b) :: View(s, b)
    else Durable(lay, s.disk)
  }

  function Abs(lay: Layout, s: State): Spec
    requires DiskOk(lay, s.disk)
  {
    Spec(Durable(lay, s.disk), Current(lay, s), s.core.active.Keys)
  }
}
