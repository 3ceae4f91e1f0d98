/** The log budget of a chunk is met: a file system on which a write of filewrite's size logs
    exactly MAXOPBLOCKS blocks, and one with a hole below the file's size on which it would log
    more (filewrite of kernel/file.c, writei and bmap of kernel/fs.c). */
module FileTight {
  import opened Common
  import opened BlockFormat
  import opened FileLayer
  import opened FileContents
  import opened FileBudget
  import opened FileLog

  // ---------------------------------------------------------------------------------------
  // A disk with eight bitmap blocks and one free block under each, before some at its end.

  const NINODES := 225
  const META := 55
  const DATA := 60268          // 218 files of 269 slots, 12 slots of one, five empty ones, and 12 of one more

  const DISK := Layout(META + DATA, 32, 47, META)

  /** The data blocks that are free: the last slot of every 31st file. */
  ghost predicate Spare(m: nat) {
    m == 268 || m == 8607 || m == 16946 || m == 25285 || m == 33624 || m == 41963 || m == 50302 || m == 58641
  }

  const SPARES: seq<nat> := [323, 8662, 17001, 25340, 33679, 42018, 50357, 58696]

  /** Those not given to a file: also the rest of the first short file's slots and those of the empty files,
      and the last block of the first short file if it is to have a hole. */
  ghost predicate Skipped(m: nat, hole: bool) { Spare(m) || 58654 <= m < 60256 || (hole && m == 58653) }

  ghost function PlaceOf(m: nat): Place { Place(m / NSLOTS, m % NSLOTS) }

  /** The first m data blocks are given out in order. */
  ghost predicate Given(own: map<nat, Place>, m: nat, hole: bool) {
    && (forall b: nat :: b in own <==> META <= b < META + m && !Skipped(b - META, hole))
    && (forall b: nat | b in own :: b >= META && own[b] == PlaceOf(b - META))
  }

  // The empty file system.

  lemma {:induction false} ZeroBit(i: nat)
    ensures !Bit(0, i)
  {
    if i > 0 { ZeroBit(i - 1); }
  }

  lemma ZeroDiskFree(l: Layout, disk: Disk, c: nat)
    requires BitBlock(l, c) < |disk| && disk[BitBlock(l, c)] == ZERO_BLOCK
    ensures !Used(l, disk, c)
  {
    ZeroBit(c % BPB % 8);
  }

  ghost function ZeroDisk(n: nat): (d: Disk)
    ensures |d| == n && forall b | 0 <= b < n :: d[b] == ZERO_BLOCK
  {
    if n == 0 then [] else ZeroDisk(n - 1) + [ZERO_BLOCK]
  }

  /** The first n blocks marked on an empty disk. */
  lemma {:induction false} MarkFirst(l: Layout, n: nat, size: nat) returns (disk: Disk)
    requires l.bmapstart + size / BPB < size && n <= size
    ensures |disk| == size && forall c: nat | c < size :: Used(l, disk, c) <==> c < n
    decreases n
  {
    if n == 0 {
      disk := ZeroDisk(size);
      forall c: nat | c < size ensures !Used(l, disk, c) { ZeroDiskFree(l, disk, c); }
    } else {
      var disk1 := MarkFirst(l, n - 1, size);
      disk := Mark(l, disk1, n - 1, true);
      forall c: nat | c < size ensures Used(l, disk, c) <==> c < n { UsedAfterMark(l, disk1, n - 1, true, c); }
    }
  }

  ghost function NoInodes(n: nat): (ino: seq<Inode>)
    ensures |ino| == n && forall i | 0 <= i < n :: ino[i] == Inode(0, NoAddrs())
  {
    if n == 0 then [] else NoInodes(n - 1) + [Inode(0, NoAddrs())]
  }

  ghost function NoAddrs(): (a: seq<nat>)
    ensures |a| == NDIRECT + 1 && forall k | 0 <= k < |a| :: a[k] == 0
  {
    [0, 0, 0, 0, 0, 0, 0, 0, 0, 0, 0, 0, 0]
  }

  ghost predicate Built(s: Fs, m: nat, hole: bool) {
    Good(DISK, s) && |s.ino| == NINODES && Given(s.own, m, hole) && forall j | 0 <= j < NINODES :: s.ino[j].size == 0
  }

  lemma Empty(hole: bool) returns (s: Fs)
    ensures Built(s, 0, hole)
  {
    var disk := MarkFirst(DISK, META, META + DATA);
    s := Fs(disk, NoInodes(NINODES), map[]);
  }

  // Its blocks given out.

  lemma SlotVacant(l: Layout, s: Fs, i: nat, k: nat)
    requires Good(l, s) && i < |s.ino| && k < NSLOTS && forall b | b in s.own :: s.own[b] != Place(i, k)
    ensures Slot(s.disk, s.ino[i].addrs, k) == 0
  {
  }

  lemma SlotNamed(l: Layout, s: Fs, b: nat, i: nat, k: nat)
    requires Good(l, s) && b in s.own && s.own[b] == Place(i, k)
    ensures i < |s.ino| && k < NSLOTS && Slot(s.disk, s.ino[i].addrs, k) == b
  {
  }

  lemma NotYet(s: Fs, m: nat, hole: bool, i: nat, k: nat)
    requires Given(s.own, m, hole) && k < NSLOTS && m == NSLOTS * i + k
    ensures forall b | b in s.own :: s.own[b] != Place(i, k)
  {
    forall b | b in s.own ensures s.own[b] != Place(i, k) {
      var m0: nat := b - META;
      assert s.own[b] == PlaceOf(m0) && m0 == NSLOTS * PlaceOf(m0).i + PlaceOf(m0).k;
    }
  }

  lemma SlotNotYet(s: Fs, m: nat, hole: bool, i: nat, k: nat)
    requires Built(s, m, hole) && m < DATA && k < NSLOTS && m == NSLOTS * i + k
    ensures i < NINODES && |s.ino[i].addrs| == NDIRECT + 1 && Slot(s.disk, s.ino[i].addrs, k) == 0 && META + m !in s.own
  {
    NotYet(s, m, hole, i, k);
    SlotVacant(DISK, s, i, k);
  }

  lemma GivenMore(own: map<nat, Place>, own': map<nat, Place>, m: nat, hole: bool)
    requires Given(own, m, hole)
    requires own' == if Skipped(m, hole) then own else own[META + m := PlaceOf(m)]
    ensures Given(own', m + 1, hole)
  {
  }

  /** The indirect block is given out before its entries. */
  lemma PointerGiven(s: Fs, m: nat, hole: bool, i: nat, k: nat)
    requires Built(s, m, hole) && m < DATA && !Skipped(m, hole) && m == NSLOTS * i + k && NDIRECT < k < NSLOTS
    ensures i < NINODES && |s.ino[i].addrs| == NDIRECT + 1 && 0 != s.ino[i].addrs[NDIRECT] < META + DATA
  {
    var m0 := NSLOTS * i + NDIRECT;
    assert PlaceOf(m0) == Place(i, NDIRECT);
    assert META + m0 in s.own;
    SlotNamed(DISK, s, META + m0, i, NDIRECT);
  }

  lemma BuildAddr(s: Fs, m: nat, hole: bool, i: nat, k: nat) returns (s': Fs)
    requires Built(s, m, hole) && m < DATA && !Skipped(m, hole) && k <= NDIRECT && m == NSLOTS * i + k
    ensures Good(DISK, s') && |s'.ino| == NINODES && s'.own == s.own[META + m := Place(i, k)]
    ensures forall j | 0 <= j < NINODES :: s'.ino[j].size == 0
  {
    SlotNotYet(s, m, hole, i, k);
    AddrStep(DISK, s, i, k, META + m);
    s' := AddAddr(DISK, s, i, k, META + m);
  }

  lemma BuildEntry(s: Fs, m: nat, hole: bool, i: nat, k: nat) returns (s': Fs)
    requires Built(s, m, hole) && m < DATA && !Skipped(m, hole) && NDIRECT < k < NSLOTS && m == NSLOTS * i + k
    ensures Good(DISK, s') && |s'.ino| == NINODES && s'.own == s.own[META + m := Place(i, k)]
    ensures forall j | 0 <= j < NINODES :: s'.ino[j].size == 0
  {
    SlotNotYet(s, m, hole, i, k);
    PointerGiven(s, m, hole, i, k);
    EntryStep(DISK, s, i, k - NDIRECT - 1, META + m);
    s' := AddEntry(DISK, s, i, k - NDIRECT - 1, META + m);
  }

  lemma BuildStep(s: Fs, m: nat, hole: bool) returns (s': Fs)
    requires Built(s, m, hole) && m < DATA
    ensures Built(s', m + 1, hole)
  {
    if Skipped(m, hole) {
      s' := s;
    } else if m % NSLOTS <= NDIRECT {
      s' := BuildAddr(s, m, hole, m / NSLOTS, m % NSLOTS);
    } else {
      s' := BuildEntry(s, m, hole, m / NSLOTS, m % NSLOTS);
    }
    GivenMore(s.own, s'.own, m, hole);
  }

  lemma {:induction false} Build(m: nat, hole: bool) returns (s: Fs)
    requires m <= DATA
    ensures Built(s, m, hole)
    decreases m
  {
    if m == 0 {
      s := Empty(hole);
    } else {
      var s1 := Build(m - 1, hole);
      s := BuildStep(s1, m - 1, hole);
    }
  }

  // The files' sizes.

  const LAST := 218            // the short files, which are written to
  const OTHER := 224

  /** Bytes in the blocks before a short file's last one, and one more. */
  const OFF := 11265

  ghost function SizeOf(j: nat): nat {
    if j == LAST || j == OTHER then OFF else if LAST < j < OTHER then 0
    else if j % 31 == 0 then 267 * BSIZE else MAXFILE * BSIZE
  }

  ghost predicate ClosedTo(s: Fs, n: nat, hole: bool) {
    && Good(DISK, s) && |s.ino| == NINODES && Given(s.own, DATA, hole)
    && (forall j: nat | j < n && j < NINODES :: s.ino[j].size == SizeOf(j) && Synced(DISK, s.disk, s.ino, j))
  }

  lemma CloseOne(s: Fs, n: nat, hole: bool) returns (s': Fs)
    requires ClosedTo(s, n, hole) && n < NINODES
    ensures ClosedTo(s', n + 1, hole)
  {
    CloseStorable(DISK, s, n, SizeOf(n));
    s' := Closed(DISK, s, n, SizeOf(n));
    CloseGood(DISK, s, s', n, SizeOf(n));
    forall j: nat | j < n + 1 ensures Synced(DISK, s'.disk, s'.ino, j) { CloseSynced(DISK, s, s', n, SizeOf(n), j); }
  }

  lemma {:induction false} CloseAll(n: nat, hole: bool) returns (s: Fs)
    requires n <= NINODES
    ensures ClosedTo(s, n, hole)
    decreases n
  {
    if n == 0 {
      s := Build(DATA, hole);
    } else {
      var s1 := CloseAll(n - 1, hole);
      s := CloseOne(s1, n - 1, hole);
    }
  }

  lemma InUse(hole: bool, j: nat, bn: nat, m: nat)
    requires j < NINODES && bn < MAXFILE && bn * BSIZE < SizeOf(j) && !(hole && j == LAST && bn == 11) &&
             m == NSLOTS * j + DataSlot(bn)
    ensures PlaceOf(m) == Place(j, DataSlot(bn)) && !Skipped(m, hole) && m < DATA
  {
  }

  /** Every slot below a file's size is in use, but for the hole. */
  lemma SlotInUse(s: Fs, hole: bool, j: nat, bn: nat)
    requires ClosedTo(s, NINODES, hole) && j < NINODES && bn < MAXFILE && bn * BSIZE < SizeOf(j) &&
             !(hole && j == LAST && bn == 11)
    ensures Slot(s.disk, s.ino[j].addrs, DataSlot(bn)) == META + NSLOTS * j + DataSlot(bn)
  {
    var m := NSLOTS * j + DataSlot(bn);
    InUse(hole, j, bn, m);
    assert META + m in s.own;
    SlotNamed(DISK, s, META + m, j, DataSlot(bn));
  }

  lemma NoHoles(s: Fs)
    requires ClosedTo(s, NINODES, false)
    ensures Whole(DISK, s)
  {
    forall j: nat | j < NINODES ensures FileOk(s.disk, s.ino[j]) {
      forall o: nat | o < s.ino[j].size ensures Slot(s.disk, s.ino[j].addrs, DataSlot(o / BSIZE)) != 0 {
        SlotInUse(s, false, j, o / BSIZE);
      }
    }
  }

  // ---------------------------------------------------------------------------------------
  // The write.

  /** The free blocks in order, as far as fs goes. */
  ghost predicate Lowest(l: Layout, own: map<nat, Place>, fs: seq<nat>) {
    && (forall a, b | 0 <= a < b < |fs| :: fs[a] < fs[b])
    && (forall a | 0 <= a < |fs| :: l.datastart <= fs[a] < l.size && fs[a] !in own)
    && (forall b: nat | l.datastart <= b && b !in own && b !in fs :: forall a | 0 <= a < |fs| :: fs[a] < b)
  }

  lemma LowestIsFirst(l: Layout, s: Fs, fs: seq<nat>)
    requires Good(l, s) && Lowest(l, s.own, fs) && fs != []
    ensures Free(l, s.disk, fs[0]) && First(l, s.disk, fs[0])
  {
    forall c: nat | c < fs[0] && BitBlock(l, c) < |s.disk| ensures Used(l, s.disk, c) {
      assert c in fs ==> false;
    }
  }

  lemma LowestNext(l: Layout, own: map<nat, Place>, fs: seq<nat>, p: Place)
    requires Lowest(l, own, fs) && fs != []
    ensures Lowest(l, own[fs[0] := p], fs[1..])
  {
    forall b: nat | l.datastart <= b && b !in own[fs[0] := p] && b !in fs[1..] ensures b !in own && b !in fs {
      assert fs == [fs[0]] + fs[1..];
    }
  }

  /** Between rounds: file i has indirect block x and no block from bn on, and fs are the free
      blocks to come. */
  ghost predicate Stage(l: Layout, s: Fs, i: nat, x: nat, bn: nat, fs: seq<nat>) {
    && i < |s.ino| && x == Pointer(s, i) && Lowest(l, s.own, fs)
    && (forall b | b in s.own && s.own[b].i == i :: s.own[b].k < DataSlot(bn) || (x != 0 && s.own[b].k == NDIRECT))
  }

  lemma StageVacant(l: Layout, s: Fs, i: nat, x: nat, bn: nat, fs: seq<nat>, k: nat)
    requires Good(l, s) && Stage(l, s, i, x, bn, fs) && DataSlot(bn) <= k < NSLOTS && (k == NDIRECT ==> x == 0)
    ensures Slot(s.disk, s.ino[i].addrs, k) == 0
  {
    SlotVacant(l, s, i, k);
  }

  /** A direct block, or the indirect block, is added. */
  lemma AddrStage(l: Layout, s: Fs, i: nat, k: nat, fs: seq<nat>, s1: Fs, x: nat, bn: nat)
    requires Good(l, s) && Stage(l, s, i, 0, k, fs) && k <= NDIRECT && fs != []
    requires x == (if k == NDIRECT then fs[0] else 0) && bn == if k == NDIRECT then k else k + 1
    requires Free(l, s.disk, fs[0]) && s1 == AddAddr(l, s, i, k, fs[0])
    ensures CanAddAddr(l, s, i, k, fs[0]) && Stage(l, s1, i, x, bn, fs[1..]) && s1.ino[i].addrs[k] == fs[0]
  {
    SlotVacant(l, s, i, k);
    LowestIsFirst(l, s, fs);
    LowestNext(l, s.own, fs, Place(i, k));
  }

  /** An entry of the indirect block is added. */
  lemma EntryStage(l: Layout, s: Fs, i: nat, x: nat, bn: nat, fs: seq<nat>, s1: Fs)
    requires Good(l, s) && Stage(l, s, i, x, bn, fs) && x != 0 && NDIRECT <= bn < MAXFILE && fs != []
    requires Free(l, s.disk, fs[0]) && x < |s.disk| && s1 == AddEntry(l, s, i, bn - NDIRECT, fs[0])
    ensures CanAddEntry(l, s, i, bn - NDIRECT, fs[0]) && Stage(l, s1, i, x, bn + 1, fs[1..])
  {
    StageVacant(l, s, i, x, bn, fs, DataSlot(bn));
    LowestIsFirst(l, s, fs);
    LowestNext(l, s.own, fs, Place(i, DataSlot(bn)));
  }

  lemma EntryAt(l: Layout, s: Fs, i: nat, bn: nat, b: nat, s1: Fs)
    requires NDIRECT <= bn < MAXFILE && CanAddEntry(l, s, i, bn - NDIRECT, b) &&
             s1 == AddEntry(l, s, i, bn - NDIRECT, b)
    ensures Slot(s1.disk, s1.ino[i].addrs, DataSlot(bn)) == b && Grew(l, s, s1, i, AddedEntry(Same, bn - NDIRECT, b))
  {
    assert Grew(l, s, s, i, Same);
    EntryGrew(l, s, s, s1, i, Same, bn - NDIRECT, b);
  }

  /** bmap for the next block of the file, which has an indirect block. */
  lemma LookEntry(l: Layout, s: Fs, i: nat, x: nat, n: nat, bn: nat, fs: seq<nat>) returns (g: Growth, s1: Fs)
    requires Good(l, s) && Stage(l, s, i, x, bn, fs) && x != 0 && NDIRECT <= bn < MAXFILE && bn == n / BSIZE && fs != []
    ensures Looks(l, s, i, n, fs[0], g, s1) && Stage(l, s1, i, x, bn + 1, fs[1..])
    ensures GrowthLog(l, x, g) == {BitBlock(l, fs[0]), fs[0], x}
  {
    ReadyAt(l, s, i);
    LowestIsFirst(l, s, fs);
    g, s1 := AddedEntry(Same, bn - NDIRECT, fs[0]), AddEntry(l, s, i, bn - NDIRECT, fs[0]);
    EntryStage(l, s, i, x, bn, fs, s1);
    EntryLooks(l, s, i, n, bn, fs[0], g, s1);
  }

  lemma EntryLooks(l: Layout, s: Fs, i: nat, n: nat, bn: nat, b: nat, g: Growth, s1: Fs)
    requires NDIRECT <= bn < MAXFILE && bn == n / BSIZE && CanAddEntry(l, s, i, bn - NDIRECT, b) && b != 0
    requires s1 == AddEntry(l, s, i, bn - NDIRECT, b) && g == AddedEntry(Same, bn - NDIRECT, b)
    ensures Looks(l, s, i, n, b, g, s1)
  {
    EntryAt(l, s, i, bn, b, s1);
  }

  /** bmap for the first block that needs the indirect block. */
  lemma LookFirst(l: Layout, s: Fs, i: nat, n: nat, fs: seq<nat>) returns (g: Growth, s2: Fs)
    requires Good(l, s) && Stage(l, s, i, 0, NDIRECT, fs) && NDIRECT == n / BSIZE && |fs| > 1
    ensures Looks(l, s, i, n, fs[1], g, s2) && Stage(l, s2, i, fs[0], NDIRECT + 1, fs[2..])
    ensures GrowthLog(l, fs[0], g) == {BitBlock(l, fs[0]), fs[0], BitBlock(l, fs[1]), fs[1]}
  {
    StageVacant(l, s, i, 0, NDIRECT, fs, NDIRECT + 1);
    LowestIsFirst(l, s, fs);
    var s1 := AddAddr(l, s, i, NDIRECT, fs[0]);
    AddrStage(l, s, i, NDIRECT, fs, s1, fs[0], NDIRECT);
    AddrStep(l, s, i, NDIRECT, fs[0]);
    assert fs[1..][0] == fs[1] && fs[1..][1..] == fs[2..];
    s2 := FirstEntry(l, s1, i, fs[0], fs[1..]);
    g := AddedEntry(AddedAddr(Same, NDIRECT, fs[0]), 0, fs[1]);
    FirstGrew(l, s, s1, s2, i, fs[0], fs[1]);
  }

  lemma FirstEntry(l: Layout, s: Fs, i: nat, x: nat, fs: seq<nat>) returns (s1: Fs)
    requires Good(l, s) && Stage(l, s, i, x, NDIRECT, fs) && x != 0 && fs != []
    ensures CanAddEntry(l, s, i, 0, fs[0]) && s1 == AddEntry(l, s, i, 0, fs[0]) &&
            Stage(l, s1, i, x, NDIRECT + 1, fs[1..])
    ensures Slot(s1.disk, s1.ino[i].addrs, NDIRECT + 1) == fs[0]
  {
    ReadyAt(l, s, i);
    LowestIsFirst(l, s, fs);
    s1 := AddEntry(l, s, i, 0, fs[0]);
    EntryStage(l, s, i, x, NDIRECT, fs, s1);
    EntryAt(l, s, i, NDIRECT, fs[0], s1);
  }

  lemma FirstGrew(l: Layout, s: Fs, s1: Fs, s2: Fs, i: nat, x: nat, b: nat)
    requires CanAddAddr(l, s, i, NDIRECT, x) && s1 == AddAddr(l, s, i, NDIRECT, x)
    requires CanAddEntry(l, s1, i, 0, b) && s2 == AddEntry(l, s1, i, 0, b)
    ensures Grew(l, s, s2, i, AddedEntry(AddedAddr(Same, NDIRECT, x), 0, b))
    ensures GrowthLog(l, x, AddedEntry(AddedAddr(Same, NDIRECT, x), 0, b)) == {BitBlock(l, x), x, BitBlock(l, b), b}
  {
    assert Grew(l, s, s, i, Same);
    assert Grew(l, s, s1, i, AddedAddr(Same, NDIRECT, x));
    assert GrowthLog(l, x, AddedAddr(Same, NDIRECT, x)) == {BitBlock(l, x), x};
  }

  /** bmap for a direct block that is missing. */
  lemma LookDirect(l: Layout, s: Fs, i: nat, n: nat, bn: nat, fs: seq<nat>) returns (g: Growth, s1: Fs)
    requires Good(l, s) && Stage(l, s, i, 0, bn, fs) && bn < NDIRECT && bn == n / BSIZE && fs != []
    ensures Looks(l, s, i, n, fs[0], g, s1) && Stage(l, s1, i, 0, bn + 1, fs[1..])
    ensures GrowthLog(l, 0, g) == {BitBlock(l, fs[0]), fs[0]}
  {
    LowestIsFirst(l, s, fs);
    StageVacant(l, s, i, 0, bn, fs, bn);
    g, s1 := AddedAddr(Same, bn, fs[0]), AddAddr(l, s, i, bn, fs[0]);
    AddrStage(l, s, i, bn, fs, s1, 0, bn + 1);
    assert Grew(l, s, s, i, Same);
  }

  /** bmap for a block that is there. */
  lemma LookThere(l: Layout, s: Fs, i: nat, n: nat)
    requires Good(l, s) && i < |s.ino| && n < MAXFILE * BSIZE && Slot(s.disk, s.ino[i].addrs, DataSlot(n / BSIZE)) != 0
    ensures Looks(l, s, i, n, Slot(s.disk, s.ino[i].addrs, DataSlot(n / BSIZE)), Same, s)
  {
  }

  // A whole round: the bmap, and the copy.

  lemma MayCopy(l: Layout, s0: Fs, i: nat, off: nat, src: seq<Byte>, mid: Steps, chunk: seq<Byte>)
    requires Ran(l, s0, i, off, src, mid) && mid.Looked? && mid.addr != 0
    requires |chunk| > 0 && mid.n % BSIZE + |chunk| <= BSIZE && mid.n + |chunk| <= MAXFILE * BSIZE
    ensures CanPut(mid.now, i, mid.n, chunk)
  {
    RanGood(l, s0, i, off, src, mid);
    SlotInRange(l, mid.now.disk, mid.now.ino, mid.now.own, i, DataSlot(mid.n / BSIZE));
  }

  /** After rounds that wrote tot bytes of src and logged `log`, file i is at a stage. */
  ghost predicate Came(l: Layout, s0: Fs, i: nat, off: nat, src: seq<Byte>, h: Steps, tot: nat, x: nat, bn: nat,
                       fs: seq<nat>, log: set<nat>) {
    && Ran(l, s0, i, off, src, h) && !h.Looked? && tot <= |src| && Data(h) == src[..tot]
    && Stage(l, h.now, i, x, bn, fs) && LogOf(l, i, h) == log
  }

  lemma MayCopyPiece(l: Layout, s0: Fs, i: nat, off: nat, src: seq<Byte>, mid: Steps, tot: nat)
    requires Ran(l, s0, i, off, src, mid) && mid.Looked? && mid.addr != 0 && mid.n == off + tot && tot < |src|
    requires off + tot + RoundLen(off, tot, |src|) <= MAXFILE * BSIZE
    ensures CanPut(mid.now, i, mid.n, Piece(off, src, tot))
  {
    RoundEdge(off, tot, |src|);
    MayCopy(l, s0, i, off, src, mid, Piece(off, src, tot));
  }

  lemma OneRound(l: Layout, s0: Fs, i: nat, off: nat, src: seq<Byte>, h: Steps, tot: nat, tot': nat, n: nat, at: nat,
                 g: Growth, s1: Fs, x: nat, bn: nat, fs: seq<nat>, log: set<nat>)
    returns (h': Steps)
    requires Ran(l, s0, i, off, src, h) && !h.Looked? && tot < |src| && Data(h) == src[..tot] && LogOf(l, i, h) == log
    requires n == off + tot && at != 0 && Looks(l, h.now, i, n, at, g, s1) && Stage(l, s1, i, x, bn, fs)
    requires tot' == tot + RoundLen(off, tot, |src|) && off + tot' <= MAXFILE * BSIZE
    ensures Came(l, s0, i, off, src, h', tot', x, bn, fs, log + GrowthLog(l, x, g) + {at})
  {
    var mid := Looked(h, n, at, g, s1);
    StepLooked(l, s0, i, off, src, h, mid, tot);
    var chunk := Piece(off, src, tot);
    MayCopyPiece(l, s0, i, off, src, mid, tot);
    var s2 := Put(s1, i, n, chunk);
    StepRan(l, s0, i, off, src, mid, tot, chunk, s2);
    h' := Copied(mid, chunk, s2);
  }

  /** A round that adds an entry of the indirect block. */
  lemma EntryRound(l: Layout, s0: Fs, i: nat, off: nat, src: seq<Byte>, h: Steps, tot: nat, tot': nat, n: nat, x: nat,
                   bn: nat, fs: seq<nat>, log: set<nat>, log': set<nat>) returns (h': Steps)
    requires Came(l, s0, i, off, src, h, tot, x, bn, fs, log) && x != 0 && NDIRECT <= bn < MAXFILE && fs != []
    requires tot < |src| && n == off + tot && bn == n / BSIZE && tot' == tot + RoundLen(off, tot, |src|) &&
             off + tot' <= MAXFILE * BSIZE
    requires log' == log + {BitBlock(l, fs[0]), fs[0], x}
    ensures Came(l, s0, i, off, src, h', tot', x, bn + 1, fs[1..], log')
  {
    RanGood(l, s0, i, off, src, h);
    var g, s1 := LookEntry(l, h.now, i, x, n, bn, fs);
    h' := OneRound(l, s0, i, off, src, h, tot, tot', n, fs[0], g, s1, x, bn + 1, fs[1..], log);
    assert log + GrowthLog(l, x, g) + {fs[0]} == log';
  }

  /** A round that adds the indirect block and its first entry. */
  lemma FirstRound(l: Layout, s0: Fs, i: nat, off: nat, src: seq<Byte>, h: Steps, tot: nat, tot': nat, n: nat,
                   fs: seq<nat>, log: set<nat>, log': set<nat>) returns (h': Steps)
    requires Came(l, s0, i, off, src, h, tot, 0, NDIRECT, fs, log) && |fs| > 1
    requires tot < |src| && n == off + tot && NDIRECT == n / BSIZE && tot' == tot + RoundLen(off, tot, |src|) &&
             off + tot' <= MAXFILE * BSIZE
    requires log' == log + {BitBlock(l, fs[0]), fs[0], BitBlock(l, fs[1]), fs[1]}
    ensures Came(l, s0, i, off, src, h', tot', fs[0], NDIRECT + 1, fs[2..], log')
  {
    RanGood(l, s0, i, off, src, h);
    var g, s1 := LookFirst(l, h.now, i, n, fs);
    h' := OneRound(l, s0, i, off, src, h, tot, tot', n, fs[1], g, s1, fs[0], NDIRECT + 1, fs[2..], log);
    assert log + GrowthLog(l, fs[0], g) + {fs[1]} == log';
  }

  /** A round that adds a direct block. */
  lemma DirectRound(l: Layout, s0: Fs, i: nat, off: nat, src: seq<Byte>, h: Steps, tot: nat, tot': nat, n: nat, bn: nat,
                    fs: seq<nat>, log: set<nat>, log': set<nat>) returns (h': Steps)
    requires Came(l, s0, i, off, src, h, tot, 0, bn, fs, log) && fs != [] && bn < NDIRECT
    requires tot < |src| && n == off + tot && bn == n / BSIZE && tot' == tot + RoundLen(off, tot, |src|) &&
             off + tot' <= MAXFILE * BSIZE
    requires log' == log + {BitBlock(l, fs[0]), fs[0]}
    ensures Came(l, s0, i, off, src, h', tot', 0, bn + 1, fs[1..], log')
  {
    RanGood(l, s0, i, off, src, h);
    var g, s1 := LookDirect(l, h.now, i, n, bn, fs);
    h' := OneRound(l, s0, i, off, src, h, tot, tot', n, fs[0], g, s1, 0, bn + 1, fs[1..], log);
    assert log + GrowthLog(l, 0, g) + {fs[0]} == log';
  }

  // ---------------------------------------------------------------------------------------
  // The bound is met.

  lemma SparesLowest(s: Fs, hole: bool)
    requires ClosedTo(s, NINODES, hole)
    ensures Lowest(DISK, s.own, SPARES)
  {
    forall b: nat | META <= b && b !in s.own && b !in SPARES ensures 58696 < b {
      assert b - META >= DATA || Skipped(b - META, hole);
      assert SPARES[0] == 323 && SPARES[1] == 8662 && SPARES[2] == 17001 && SPARES[3] == 25340;
      assert SPARES[4] == 33679 && SPARES[5] == 42018 && SPARES[6] == 50357 && SPARES[7] == 58696;
    }
  }

  lemma StartStage(s: Fs, hole: bool)
    requires ClosedTo(s, NINODES, hole)
    ensures Stage(DISK, s, LAST, 0, if hole then 11 else 12, SPARES)
  {
    SparesLowest(s, hole);
    forall b | b in s.own && s.own[b].i == LAST ensures s.own[b].k < 11 || (!hole && s.own[b].k == 11) {
      assert s.own[b] == PlaceOf(b - META) && b - META < DATA;
    }
    SlotVacant(DISK, s, LAST, NDIRECT);
  }

  /** What the rounds after the first log: the indirect block, three data blocks and their bits. */
  ghost function LaterLog(fs: seq<nat>): set<nat>
    requires |fs| >= 4
  {
    {fs[0], fs[1], fs[2], fs[3], BitBlock(DISK, fs[0]), BitBlock(DISK, fs[1]), BitBlock(DISK, fs[2]),
      BitBlock(DISK, fs[3])}
  }

  lemma LaterRounds(s0: Fs, i: nat, src: seq<Byte>, h: Steps, fs: seq<nat>, log: set<nat>, log': set<nat>)
    returns (h': Steps)
    requires |src| == CHUNK && |fs| >= 4 && Came(DISK, s0, i, OFF, src, h, 1023, 0, 12, fs, log) && fs[0] != 0
    requires log' == log + LaterLog(fs)
    ensures Came(DISK, s0, i, OFF, src, h', 3072, fs[0], 15, fs[4..], log')
  {
    var x := fs[0];
    var log1 := log + {BitBlock(DISK, x), x, BitBlock(DISK, fs[1]), fs[1]};
    var h1 := FirstRound(DISK, s0, i, OFF, src, h, 1023, 2047, 12288, fs, log, log1);
    h' := LastRounds(s0, i, src, h1, x, fs[2..], log1, log');
    assert fs[2..][2..] == fs[4..];
  }

  lemma LastRounds(s0: Fs, i: nat, src: seq<Byte>, h: Steps, x: nat, fs: seq<nat>, log: set<nat>, log': set<nat>)
    returns (h': Steps)
    requires |src| == CHUNK && |fs| >= 2 && Came(DISK, s0, i, OFF, src, h, 2047, x, 13, fs, log) && x != 0 && x in log
    requires log' == log + {fs[0], fs[1], BitBlock(DISK, fs[0]), BitBlock(DISK, fs[1])}
    ensures Came(DISK, s0, i, OFF, src, h', 3072, x, 15, fs[2..], log')
  {
    var log1 := log + {BitBlock(DISK, fs[0]), fs[0], x};
    var h1 := EntryRound(DISK, s0, i, OFF, src, h, 2047, 3071, 13312, x, 13, fs, log, log1);
    h' := EntryRound(DISK, s0, i, OFF, src, h1, 3071, 3072, 14336, x, 14, fs[1..], log1, log');
    assert fs[1..][1..] == fs[2..];
  }

  /** The first round finds the block the write starts in. */
  lemma StartThere(s0: Fs, i: nat, src: seq<Byte>, at: nat, fs: seq<nat>) returns (h: Steps)
    requires Good(DISK, s0) && i < |s0.ino| && |src| == CHUNK && Stage(DISK, s0, i, 0, 12, fs)
    requires at != 0 && Slot(s0.disk, s0.ino[i].addrs, 11) == at
    ensures Came(DISK, s0, i, OFF, src, h, 1023, 0, 12, fs, {at})
  {
    LookThere(DISK, s0, i, OFF);
    h := OneRound(DISK, s0, i, OFF, src, Begun(s0), 0, 1023, OFF, at, Same, s0, 0, 12, fs, {});
    assert {} + GrowthLog(DISK, 0, Same) + {at} == {at};
  }

  /** With a hole there, it must add a block. */
  lemma StartHole(s0: Fs, src: seq<Byte>) returns (h: Steps)
    requires ClosedTo(s0, NINODES, true) && |src| == CHUNK
    ensures Came(DISK, s0, LAST, OFF, src, h, 1023, 0, 12, SPARES[1..], {47, 323})
  {
    StartStage(s0, true);
    h := DirectRound(DISK, s0, LAST, OFF, src, Begun(s0), 0, 1023, OFF, 11, SPARES, {}, {47, 323});
  }

  lemma TenSet()
    ensures |{58708} + LaterLog(SPARES) + {InodeBlock(DISK, LAST)}| == MAXOPBLOCKS
  {
    assert {58708} + LaterLog(SPARES) + {InodeBlock(DISK, LAST)}
        == {58708, 323, 8662, 17001, 25340, 47, 48, 49, 50, 45};
  }

  lemma ElevenSet()
    ensures |{47, 323} + LaterLog(SPARES[1..]) + {InodeBlock(DISK, LAST)}| == MAXOPBLOCKS + 1
  {
    assert {47, 323} + LaterLog(SPARES[1..]) + {InodeBlock(DISK, LAST)}
        == {47, 323, 8662, 17001, 25340, 33679, 48, 49, 50, 51, 45};
  }

  /** A short file whose last block is there, with these blocks free. */
  lemma TenRun(s0: Fs, i: nat, src: seq<Byte>, at: nat, fs: seq<nat>) returns (h: Steps)
    requires Good(DISK, s0) && i < |s0.ino| && |src| == CHUNK && Stage(DISK, s0, i, 0, 12, fs)
    requires |fs| >= 4 && fs[0] != 0 && at != 0 && Slot(s0.disk, s0.ino[i].addrs, 11) == at
    ensures Came(DISK, s0, i, OFF, src, h, 3072, fs[0], 15, fs[4..], {at} + LaterLog(fs))
  {
    var h1 := StartThere(s0, i, src, at, fs);
    h := LaterRounds(s0, i, src, h1, fs, {at}, {at} + LaterLog(fs));
  }

  lemma ElevenRun(s0: Fs, src: seq<Byte>) returns (h: Steps)
    requires ClosedTo(s0, NINODES, true) && |src| == CHUNK
    ensures Came(DISK, s0, LAST, OFF, src, h, 3072, 8662, 15, SPARES[5..], {47, 323} + LaterLog(SPARES[1..]))
  {
    var h1 := StartHole(s0, src);
    h := LaterRounds(s0, LAST, src, h1, SPARES[1..], {47, 323}, {47, 323} + LaterLog(SPARES[1..]));
    assert SPARES[1..][4..] == SPARES[5..];
  }

  /** The run h writes all of src, is the only one to finish, and logs n blocks, the inode's included. */
  ghost predicate Logs(s0: Fs, src: seq<Byte>, h: Steps, n: nat) {
    && Ran(DISK, s0, LAST, OFF, src, h) && Finished(h, src) && Data(h) == src
    && (forall h' | Ran(DISK, s0, LAST, OFF, src, h') && Finished(h', src) :: h' == h)
    && |LogOf(DISK, LAST, h) + {InodeBlock(DISK, LAST)}| == n
  }

  lemma CameWhole(s0: Fs, src: seq<Byte>, h: Steps, x: nat, fs: seq<nat>, log: set<nat>, n: nat)
    requires |src| == CHUNK && Came(DISK, s0, LAST, OFF, src, h, 3072, x, 15, fs, log) &&
             |log + {InodeBlock(DISK, LAST)}| == n
    ensures Logs(s0, src, h, n)
  {
    assert src[..3072] == src;
    forall h' | Ran(DISK, s0, LAST, OFF, src, h') && Finished(h', src) ensures h' == h {
      FinishedUnique(DISK, s0, LAST, OFF, src, h, h');
    }
  }

  /** There is a file system, with no holes, on which a write of one of filewrite's chunks logs
      exactly as many blocks as an operation may. */
  lemma ChunkLogsTen(src: seq<Byte>) returns (s0: Fs, h: Steps)
    requires |src| == CHUNK
    ensures Whole(DISK, s0) && LAST < |s0.ino| && OFF <= s0.ino[LAST].size && Logs(s0, src, h, MAXOPBLOCKS)
  {
    s0 := CloseAll(NINODES, false);
    NoHoles(s0);
    StartStage(s0, false);
    SlotInUse(s0, false, LAST, 11);
    h := TenRun(s0, LAST, src, 58708, SPARES);
    TenSet();
    CameWhole(s0, src, h, 323, SPARES[4..], {58708} + LaterLog(SPARES), MAXOPBLOCKS);
  }

  /** On one whose file has a hole where the write starts, it logs one block too many: the bound
      rests on there being none. */
  lemma HoleLogsEleven(src: seq<Byte>) returns (s0: Fs, h: Steps)
    requires |src| == CHUNK
    ensures Good(DISK, s0) && LAST < |s0.ino| && OFF <= s0.ino[LAST].size && Logs(s0, src, h, MAXOPBLOCKS + 1)
  {
    s0 := CloseAll(NINODES, true);
    h := ElevenRun(s0, src);
    ElevenSet();
    CameWhole(s0, src, h, 8662, SPARES[5..], {47, 323} + LaterLog(SPARES[1..]), MAXOPBLOCKS + 1);
  }
}
