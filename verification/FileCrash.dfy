/** What a crash leaves of the files: the log of kernel/log.c under the file layer of kernel/fs.c. */
module FileCrash {
  import opened Common
  import opened WriteAheadLog
  import opened LogRefinement
  import B = BlockFormat
  import F = FileLayer
  import C = FileContents

  // ---------------------------------------------------------------------------------------
  // Groups of operations.  A group is what runs from a moment with no operation in progress to the
  // next: its operations may overlap.

  /** The contents when no operation was last in progress, since the last crash. */
  ghost function LastQuiet(lay: Layout, s0: State, tr: Trace): Homes
    requires Inv(lay, s0) && Legal(lay, s0, tr)
    decreases tr
  {
    RunKeeps(lay, s0, tr);
    var s := After(lay, s0, tr);
    match tr
    case Start => Current(lay, s)
    case Then(before, e) =>
      if e.Crash? || (e.EndOp? && s.core.active == map[]) then Current(lay, s) else LastQuiet(lay, s0, before)
  }

  /** The last operation in progress has just ended, and with it a group. */
  ghost predicate GroupEnds(lay: Layout, s0: State, tr: Trace)
    requires Legal(lay, s0, tr)
  {
    tr.Then? && tr.e.EndOp? && After(lay, s0, tr).core.active == map[]
  }

  /** Groups, in order, each by the run up to its end. */
  datatype Groups = NoGroup | Group(before: Groups, end: Trace)

  /** The groups whose effect is seen: a crash takes back those that are not kept. */
  ghost function NowOf(lay: Layout, s0: State, tr: Trace): Groups
    requires Legal(lay, s0, tr)
  {
    if tr.Start? then NoGroup
    else if tr.e.Crash? then KeptOf(lay, s0, tr.before)
    else if GroupEnds(lay, s0, tr) then Group(NowOf(lay, s0, tr.before), tr)
    else NowOf(lay, s0, tr.before)
  }

  /** The groups that survive a crash: those that were seen at the last commit point. */
  ghost function KeptOf(lay: Layout, s0: State, tr: Trace): Groups
    requires Legal(lay, s0, tr)
  {
    if tr.Start? then NoGroup
    else if tr.e.WriteHead? then NowOf(lay, s0, tr.before)
    else KeptOf(lay, s0, tr.before)
  }

  /** The groups are of the run tr, in its order. */
  ghost predicate InOrder(lay: Layout, s0: State, tr: Trace, gs: Groups)
    requires Legal(lay, s0, tr)
    decreases gs
  {
    gs.Group? ==>
      && Prefix(gs.end, tr) && Legal(lay, s0, gs.end) && GroupEnds(lay, s0, gs.end)
      && InOrder(lay, s0, gs.end.before, gs.before)
  }

  /** What the groups left. */
  ghost function Left(lay: Layout, s0: State, gs: Groups): Homes
    requires Inv(lay, s0) && (gs.Group? ==> Legal(lay, s0, gs.end))
  {
    if gs.NoGroup? then Current(lay, s0) else LastQuiet(lay, s0, gs.end)
  }

  /** Each of the groups ran on what those before it had left. */
  ghost predicate Chained(lay: Layout, s0: State, gs: Groups)
    requires Inv(lay, s0)
    decreases gs
  {
    gs.Group? ==>
      && Legal(lay, s0, gs.end) && gs.end.Then? && (gs.before.Group? ==> Legal(lay, s0, gs.before.end))
      && LastQuiet(lay, s0, gs.end.before) == Left(lay, s0, gs.before) && Chained(lay, s0, gs.before)
  }

  /** With no operation in progress nothing changes what is seen. */
  lemma {:induction false} QuietIsLast(lay: Layout, s0: State, tr: Trace)
    requires Inv(lay, s0) && Legal(lay, s0, tr)
    ensures Inv(lay, After(lay, s0, tr))
    ensures After(lay, s0, tr).core.active == map[] ==> Current(lay, After(lay, s0, tr)) == LastQuiet(lay, s0, tr)
    decreases tr
  {
    RunKeeps(lay, s0, tr);
    if tr.Then? {
      RunKeeps(lay, s0, tr.before);
      QuietIsLast(lay, s0, tr.before);
      if After(lay, s0, tr).core.active == map[] { QuietStep(lay, After(lay, s0, tr.before), tr.e); }
    }
  }

  lemma QuietStep(lay: Layout, s: State, e: Event)
    requires Inv(lay, s) && Enabled(lay, s, e) && Next(lay, s, e).core.active == map[]
    ensures Inv(lay, Next(lay, s, e))
    ensures !e.Crash? && !e.EndOp? ==> s.core.active == map[] && Current(lay, Next(lay, s, e)) == Current(lay, s)
  {
    StepRefines(lay, s, e);
    assert Abs(lay, Next(lay, s, e)).ops == {};
    assert s.core.active.Keys == {} ==> s.core.active == map[];
  }

  lemma {:induction false} OrderOn(lay: Layout, s0: State, tr: Trace, gs: Groups)
    requires tr.Then? && Legal(lay, s0, tr) && InOrder(lay, s0, tr.before, gs)
    ensures InOrder(lay, s0, tr, gs)
  {
  }

  /** The groups seen and the groups kept are groups of the run, in its order. */
  lemma {:induction false} GroupsInOrder(lay: Layout, s0: State, tr: Trace)
    requires Legal(lay, s0, tr)
    ensures InOrder(lay, s0, tr, NowOf(lay, s0, tr)) && InOrder(lay, s0, tr, KeptOf(lay, s0, tr))
    decreases tr
  {
    if tr.Then? {
      GroupsInOrder(lay, s0, tr.before);
      OrderOn(lay, s0, tr, NowOf(lay, s0, tr.before));
      OrderOn(lay, s0, tr, KeptOf(lay, s0, tr.before));
    }
  }

  ghost predicate Initial(gs: Groups, gs': Groups) { gs == gs' || (gs'.Group? && Initial(gs, gs'.before)) }

  /** What is kept is an initial part of what is seen: no group survives without those it ran on. */
  lemma {:induction false} KeptIsInitial(lay: Layout, s0: State, tr: Trace)
    requires Legal(lay, s0, tr)
    ensures Initial(KeptOf(lay, s0, tr), NowOf(lay, s0, tr))
    decreases tr
  {
    if tr.Then? { KeptIsInitial(lay, s0, tr.before); }
  }

  /** At every point of every run, what is seen when no operation is in progress is what the groups of
      NowOf left, and what a crash followed by recovery leaves is what those of KeptOf left; and each
      of these groups ran on what the one before it in the list had left. */
  lemma {:induction false} CrashLeavesOperations(lay: Layout, s0: State, tr: Trace, now: Groups, kept: Groups)
    requires Inv(lay, s0) && s0.core.active == map[] && Current(lay, s0) == Durable(lay, s0.disk)
    requires Legal(lay, s0, tr) && now == NowOf(lay, s0, tr) && kept == KeptOf(lay, s0, tr)
    ensures Inv(lay, After(lay, s0, tr)) && InOrder(lay, s0, tr, now) && InOrder(lay, s0, tr, kept)
    ensures Chained(lay, s0, now) && Left(lay, s0, now) == LastQuiet(lay, s0, tr)
    ensures Chained(lay, s0, kept) && Left(lay, s0, kept) == Durable(lay, After(lay, s0, tr).disk)
    decreases tr
  {
    RunKeeps(lay, s0, tr);
    GroupsInOrder(lay, s0, tr);
    if tr.Then? {
      var now1, kept1 := NowOf(lay, s0, tr.before), KeptOf(lay, s0, tr.before);
      CrashLeavesOperations(lay, s0, tr.before, now1, kept1);
      QuietIsLast(lay, s0, tr.before);
      BeforeOrAfter(lay, After(lay, s0, tr.before), tr.e);
      if tr.e.Crash? { CrashRefines(lay, After(lay, s0, tr.before)); }
    }
  }

  // ---------------------------------------------------------------------------------------
  // Files.

  /** A block of the file layer, from the words the log copies. */
  ghost function BlockOf(words: Block): B.Block {
    seq(1024, k requires 0 <= k < 1024 => ByteOf(words, k / 4, k % 4))
  }

  ghost function ByteOf(words: Block, j: nat, k: nat): Byte {
    if j >= |words| then 0
    else if k == 0 then words[j] % 256 else if k == 1 then words[j] / 256 % 256
    else if k == 2 then words[j] / 65536 % 256 else words[j] / 16777216 % 256
  }

  ghost function DiskOf(n: nat, homes: Homes): F.Disk {
    seq(n, b requires 0 <= b < n => if b in homes then BlockOf(homes[b]) else B.ZERO_BLOCK)
  }

  /** The file system in the home blocks, with n inodes. */
  ghost function FsOf(l: F.Layout, n: nat, homes: Homes, own: map<nat, F.Place>): F.Fs
    requires l.inodestart + n / F.IPB < l.size
  {
    var disk := DiskOf(l.size, homes);
    F.Fs(disk, seq(n, i requires 0 <= i < n => F.Load(l, disk, i)), own)
  }

  ghost predicate HasFiles(l: F.Layout, n: nat, homes: Homes) {
    l.inodestart + n / F.IPB < l.size && exists own :: C.Whole(l, FsOf(l, n, homes, own))
  }

  ghost function FilesIn(l: F.Layout, n: nat, homes: Homes): seq<seq<Byte>>
    requires HasFiles(l, n, homes)
  {
    var own :| C.Whole(l, FsOf(l, n, homes, own));
    C.Files(FsOf(l, n, homes, own))
  }

  /** The file layer's state in the home blocks is the file system found there. */
  lemma WholeFiles(l: F.Layout, s: F.Fs, homes: Homes)
    requires C.Whole(l, s) && DiskOf(l.size, homes) == s.disk
    ensures HasFiles(l, |s.ino|, homes) && FilesIn(l, |s.ino|, homes) == C.Files(s)
  {
    var n := |s.ino|;
    FoundInodes(l, s, homes);
    forall own | C.Whole(l, FsOf(l, n, homes, own)) ensures C.Files(FsOf(l, n, homes, own)) == C.Files(s) {
      SameFiles(FsOf(l, n, homes, own), s);
    }
  }

  lemma FoundInodes(l: F.Layout, s: F.Fs, homes: Homes)
    requires C.Whole(l, s) && DiskOf(l.size, homes) == s.disk
    ensures l.inodestart + |s.ino| / F.IPB < l.size && FsOf(l, |s.ino|, homes, s.own) == s
  {
    var ino := FsOf(l, |s.ino|, homes, s.own).ino;
    forall i: nat | i < |s.ino| ensures ino[i] == s.ino[i] {
      assert F.Synced(l, s.disk, s.ino, i);
    }
    assert ino == s.ino;
  }

  /** The files do not depend on who owns what. */
  lemma SameFiles(s: F.Fs, s': F.Fs)
    requires F.AllFiles(s.disk, s.ino) && s'.disk == s.disk && s'.ino == s.ino
    ensures F.AllFiles(s'.disk, s'.ino) && C.Files(s') == C.Files(s)
  {
  }

  /** An operation of the file layer: bytes written to a file, or the file emptied. */
  datatype Act = Write(i: nat, off: nat, data: seq<Byte>) | Trunc(i: nat)

  ghost function Do(f: seq<seq<Byte>>, a: Act): seq<seq<Byte>> {
    if a.i >= |f| then f
    else if a.Trunc? then f[a.i := []]
    else if a.off <= |f[a.i]| then f[a.i := C.Splice(f[a.i], a.off, a.data)] else f
  }

  /** The acts in order. */
  ghost function DoAll(f: seq<seq<Byte>>, acts: seq<Act>): seq<seq<Byte>> {
    if acts == [] then f else Do(DoAll(f, acts[..|acts| - 1]), acts[|acts| - 1])
  }

  lemma {:induction false} DoAllOn(f: seq<seq<Byte>>, a: seq<Act>, b: seq<Act>)
    ensures DoAll(f, a + b) == DoAll(DoAll(f, a), b)
    decreases |b|
  {
    if b == [] {
      assert a + b == a;
    } else {
      DoAllOn(f, a, b[..|b| - 1]);
      assert (a + b)[..|a + b| - 1] == a + b[..|b| - 1];
    }
  }

  /** A write of the file layer, from the blocks it finds to the blocks it leaves, is that act. */
  lemma WriteIsAct(l: F.Layout, s0: F.Fs, s: F.Fs, s': F.Fs, i: nat, off: nat, data: seq<Byte>, size: nat,
                   h: Homes, h': Homes)
    requires C.Whole(l, s0) && F.Good(l, s) && C.Written(l, s0, s, i, off, data) && i < |s0.ino|
    requires size == C.Max(s0.ino[i].size, off + |data|)
    requires F.InodeBlock(l, i) < |s.disk| && F.Storable(s.ino[i].(size := size)) && s' == C.Closed(l, s, i, size)
    requires DiskOf(l.size, h) == s0.disk && DiskOf(l.size, h') == s'.disk
    ensures HasFiles(l, |s0.ino|, h) && HasFiles(l, |s0.ino|, h')
    ensures FilesIn(l, |s0.ino|, h') == Do(FilesIn(l, |s0.ino|, h), Write(i, off, data))
  {
    C.WriteWhole(l, s0, s, s', i, off, data, size);
    WholeFiles(l, s0, h);
    WholeFiles(l, s', h');
  }

  /** So is a truncation. */
  lemma TruncIsAct(l: F.Layout, s0: F.Fs, s: F.Fs, s': F.Fs, i: nat, h: Homes, h': Homes)
    requires C.Whole(l, s0) && F.Good(l, s) && i < |s0.ino|
    requires F.OnlyFile(l, s0.disk, s.disk, s0.ino, s.ino, s0.own, s.own, i)
    requires F.InodeBlock(l, i) < |s.disk| && F.Storable(s.ino[i].(size := 0)) && s' == C.Closed(l, s, i, 0)
    requires DiskOf(l.size, h) == s0.disk && DiskOf(l.size, h') == s'.disk
    ensures HasFiles(l, |s0.ino|, h) && HasFiles(l, |s0.ino|, h')
    ensures FilesIn(l, |s0.ino|, h') == Do(FilesIn(l, |s0.ino|, h), Trunc(i))
  {
    C.TruncWhole(l, s0, s, s', i);
    WholeFiles(l, s0, h);
    WholeFiles(l, s', h');
  }

  /** The acts of the groups, by the run up to the end of each. */
  type Label = Trace -> seq<Act>

  ghost function ActsOf(gs: Groups, g: Label): seq<Act> {
    if gs.NoGroup? then [] else ActsOf(gs.before, g) + g(gs.end)
  }

  /** Whenever a group ends, it has done to the files what its label says. */
  ghost predicate Labelled(lay: Layout, s0: State, tr: Trace, l: F.Layout, n: nat, g: Label)
    requires Inv(lay, s0) && Legal(lay, s0, tr)
    decreases tr
  {
    tr.Then? ==>
      && Labelled(lay, s0, tr.before, l, n, g)
      && (GroupEnds(lay, s0, tr) ==> Does(l, n, LastQuiet(lay, s0, tr.before), LastQuiet(lay, s0, tr), g(tr)))
  }

  ghost predicate Does(l: F.Layout, n: nat, h: Homes, h': Homes, acts: seq<Act>) {
    HasFiles(l, n, h) ==> HasFiles(l, n, h') && FilesIn(l, n, h') == DoAll(FilesIn(l, n, h), acts)
  }

  lemma {:induction false} LabelledBefore(lay: Layout, s0: State, tr1: Trace, tr: Trace, l: F.Layout, n: nat, g: Label)
    requires Inv(lay, s0) && Legal(lay, s0, tr) && Legal(lay, s0, tr1) && Prefix(tr1, tr)
    requires Labelled(lay, s0, tr, l, n, g)
    ensures Labelled(lay, s0, tr1, l, n, g)
    decreases tr
  {
    if tr1 != tr { LabelledBefore(lay, s0, tr1, tr.before, l, n, g); }
  }

  /** Groups that ran one after the other did their acts one after the other. */
  lemma {:induction false} ChainActs(lay: Layout, s0: State, tr: Trace, gs: Groups, l: F.Layout, n: nat, g: Label)
    requires Inv(lay, s0) && HasFiles(l, n, Current(lay, s0)) && Legal(lay, s0, tr) && Labelled(lay, s0, tr, l, n, g)
    requires InOrder(lay, s0, tr, gs) && Chained(lay, s0, gs)
    ensures HasFiles(l, n, Left(lay, s0, gs))
    ensures FilesIn(l, n, Left(lay, s0, gs)) == DoAll(FilesIn(l, n, Current(lay, s0)), ActsOf(gs, g))
    decreases gs
  {
    if gs.Group? {
      LabelledBefore(lay, s0, gs.end, tr, l, n, g);
      ChainActs(lay, s0, gs.end.before, gs.before, l, n, g);
      DoAllOn(FilesIn(l, n, Current(lay, s0)), ActsOf(gs.before, g), g(gs.end));
    }
  }

  /**
   Whatever the groups do to the files: at every point of every run, a crash followed by recovery leaves
   a whole file system, whose files are those at the start after exactly the acts of the groups that were
   complete at the last commit point, less those that earlier crashes took back, in order.
   */
  lemma CrashLeavesFiles(lay: Layout, s0: State, tr: Trace, l: F.Layout, n: nat, g: Label)
    requires Inv(lay, s0) && s0.core.active == map[] && Current(lay, s0) == Durable(lay, s0.disk)
    requires HasFiles(l, n, Durable(lay, s0.disk))
    requires Legal(lay, s0, tr) && Labelled(lay, s0, tr, l, n, g)
    ensures Inv(lay, After(lay, s0, tr)) && HasFiles(l, n, Durable(lay, After(lay, s0, tr).disk))
    ensures FilesIn(l, n, Durable(lay, After(lay, s0, tr).disk))
         == DoAll(FilesIn(l, n, Durable(lay, s0.disk)), ActsOf(KeptOf(lay, s0, tr), g))
  {
    CrashLeavesOperations(lay, s0, tr, NowOf(lay, s0, tr), KeptOf(lay, s0, tr));
    ChainActs(lay, s0, tr, KeptOf(lay, s0, tr), l, n, g);
  }
}
