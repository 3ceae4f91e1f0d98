/** The file layer's on-disk state: which block each slot of each inode names, which blocks the
    free map marks, and what bytes each file holds (kernel/fs.c).

    Slot k of an inode is addrs[k] for k <= NDIRECT, addrs[NDIRECT] being the indirect block,
    and entry k - NDIRECT - 1 of the indirect block for larger k. */
module FileLayer {
  import opened Common
  import opened BlockFormat

  const NDIRECT := 12
  const NINDIRECT := 256
  const MAXFILE := 268
  const NSLOTS := 269
  const IPB := 16               // inodes per block

  /** Where the superblock puts things, and the first block that is not metadata. */
  datatype Layout = Layout(size: nat, inodestart: nat, bmapstart: nat, datastart: nat)

  datatype Inode = Inode(size: nat, addrs: seq<nat>)

  /** A slot, by inode number and index. */
  datatype Place = Place(i: nat, k: nat)

  type Disk = seq<Block>

  ghost predicate LayoutOk(l: Layout, ninodes: nat) {
    && l.inodestart + ninodes / IPB < l.bmapstart
    && l.bmapstart + l.size / BPB < l.datastart <= l.size && IsWord(l.size)
  }

  /** Index of the slot of a file's block number bn. */
  function DataSlot(bn: nat): nat { if bn < NDIRECT then bn else bn + 1 }

  // ---------------------------------------------------------------------------------------
  // The free map.

  function BitBlock(l: Layout, b: nat): nat { b / BPB + l.bmapstart }

  predicate Used(l: Layout, disk: Disk, b: nat)
    requires BitBlock(l, b) < |disk|
  {
    BlockBit(disk[BitBlock(l, b)], b % BPB)
  }

  function Mark(l: Layout, disk: Disk, b: nat, on: bool): Disk
    requires BitBlock(l, b) < |disk|
  {
    disk[BitBlock(l, b) := PutBlockBit(disk[BitBlock(l, b)], b % BPB, on)]
  }

  lemma UsedAfterMark(l: Layout, disk: Disk, b: nat, on: bool, c: nat)
    requires BitBlock(l, b) < |disk| && BitBlock(l, c) < |disk|
    ensures Used(l, Mark(l, disk, b, on), c) == if c == b then on else Used(l, disk, c)
  {
    BlockBitAfterPut(disk[BitBlock(l, b)], b % BPB, on, c % BPB);
  }

  // ---------------------------------------------------------------------------------------
  // Slots.

  function Slot(disk: Disk, a: seq<nat>, k: nat): nat
    requires |a| == NDIRECT + 1 && k < NSLOTS
  {
    if k <= NDIRECT then a[k]
    else if a[NDIRECT] == 0 || a[NDIRECT] >= |disk| then 0
    else Word(disk[a[NDIRECT]], k - NDIRECT - 1)
  }

  ghost predicate Sized(l: Layout, disk: Disk, ino: seq<Inode>) {
    && LayoutOk(l, |ino|) && |disk| == l.size && forall i | 0 <= i < |ino| :: |ino[i].addrs| == NDIRECT + 1
  }

  /** Every nonzero slot names a block that is recorded as its own, so no two slots share one. */
  ghost predicate SlotsOwned(disk: Disk, ino: seq<Inode>, own: map<nat, Place>)
    requires forall i | 0 <= i < |ino| :: |ino[i].addrs| == NDIRECT + 1
  {
    forall i: nat, k: nat | i < |ino| && k < NSLOTS && Slot(disk, ino[i].addrs, k) != 0 ::
      Slot(disk, ino[i].addrs, k) in own && own[Slot(disk, ino[i].addrs, k)] == Place(i, k)
  }

  /** Every owned block is a data block, and its slot names it. */
  ghost predicate OwnedNamed(l: Layout, disk: Disk, ino: seq<Inode>, own: map<nat, Place>)
    requires forall i | 0 <= i < |ino| :: |ino[i].addrs| == NDIRECT + 1
  {
    forall b | b in own ::
      && l.datastart <= b < l.size && own[b].i < |ino| && own[b].k < NSLOTS
      && Slot(disk, ino[own[b].i].addrs, own[b].k) == b
  }

  ghost predicate Inv(l: Layout, disk: Disk, ino: seq<Inode>, own: map<nat, Place>) {
    Sized(l, disk, ino) && SlotsOwned(disk, ino, own) && OwnedNamed(l, disk, ino, own)
  }

  /** The free map marks the metadata and, among the data blocks, exactly those in `marked`. */
  ghost predicate Marked(l: Layout, disk: Disk, marked: set<nat>)
    requires |disk| == l.size && l.bmapstart + l.size / BPB < l.size
  {
    && (forall b: nat | b < l.datastart && b < l.size :: Used(l, disk, b))
    && (forall b: nat | l.datastart <= b < l.size :: Used(l, disk, b) <==> b in marked)
  }

  lemma SlotInRange(l: Layout, disk: Disk, ino: seq<Inode>, own: map<nat, Place>, i: nat, k: nat)
    requires Inv(l, disk, ino, own) && i < |ino| && k < NSLOTS
    ensures Slot(disk, ino[i].addrs, k) == 0 || l.datastart <= Slot(disk, ino[i].addrs, k) < l.size
  {
  }

  /** What an inode's slots say depends on its address array and on its own indirect block. */
  lemma SlotFrame(disk: Disk, disk': Disk, a: seq<nat>, k: nat)
    requires |a| == NDIRECT + 1 && k < NSLOTS && |disk'| == |disk|
    requires a[NDIRECT] < |disk| ==> a[NDIRECT] == 0 || disk'[a[NDIRECT]] == disk[a[NDIRECT]]
    ensures Slot(disk', a, k) == Slot(disk, a, k)
  {
  }

  /** Changing blocks that no inode uses as its indirect block keeps every slot. */
  lemma UnownedWrite(l: Layout, disk: Disk, disk': Disk, ino: seq<Inode>, own: map<nat, Place>)
    requires Inv(l, disk, ino, own) && |disk'| == |disk|
    requires forall b | b in own && own[b].k == NDIRECT :: disk'[b] == disk[b]
    ensures Inv(l, disk', ino, own)
    ensures forall i: nat, k: nat | i < |ino| && k < NSLOTS ::
            Slot(disk', ino[i].addrs, k) == Slot(disk, ino[i].addrs, k)
  {
    forall i: nat, k: nat | i < |ino| && k < NSLOTS
      ensures Slot(disk', ino[i].addrs, k) == Slot(disk, ino[i].addrs, k)
    {
      assert ino[i].addrs[NDIRECT] == Slot(disk, ino[i].addrs, NDIRECT);
      SlotFrame(disk, disk', ino[i].addrs, k);
    }
  }

  // ---------------------------------------------------------------------------------------
  // What the operations' single steps do to ownership.

  lemma MarkKeeps(l: Layout, disk: Disk, ninodes: nat, marked: set<nat>, b: nat, on: bool)
    requires LayoutOk(l, ninodes) && |disk| == l.size && l.datastart <= b < l.size && Marked(l, disk, marked)
    ensures Marked(l, Mark(l, disk, b, on), if on then marked + {b} else marked - {b})
  {
    forall c: nat | c < l.size ensures Used(l, Mark(l, disk, b, on), c) == if c == b then on else Used(l, disk, c) {
      UsedAfterMark(l, disk, b, on, c);
    }
  }

  /** Changes outside the bitmap blocks keep the free map. */
  lemma MarkedFrame(l: Layout, disk: Disk, disk': Disk, ninodes: nat, marked: set<nat>)
    requires LayoutOk(l, ninodes) && |disk| == l.size == |disk'| && Marked(l, disk, marked)
    requires forall b: nat | l.bmapstart <= b < l.datastart :: disk'[b] == disk[b]
    ensures Marked(l, disk', marked)
  {
    forall c: nat | c < l.size ensures Used(l, disk', c) == Used(l, disk, c) {
    }
  }

  /** The disk after balloc has taken block b: marked and zeroed. */
  function Taken(l: Layout, disk: Disk, b: nat): Disk
    requires BitBlock(l, b) < |disk| && b < |disk|
  {
    Mark(l, disk, b, true)[b := ZERO_BLOCK]
  }

  /** Taking a data block keeps the metadata marked. */
  lemma TakenKeepsMeta(l: Layout, disk: Disk, ninodes: nat, b: nat)
    requires LayoutOk(l, ninodes) && |disk| == l.size && l.datastart <= b < l.size
    requires forall c: nat | c < l.datastart :: Used(l, disk, c)
    ensures forall c: nat | c < l.datastart :: Used(l, Taken(l, disk, b), c)
  {
    forall c: nat | c < l.datastart ensures Used(l, Taken(l, disk, b), c) {
      UsedAfterMark(l, disk, b, true, c);
    }
  }

  /** balloc of a free block changes nothing else that a file can see. */
  lemma AllocKeeps(l: Layout, disk: Disk, ino: seq<Inode>, own: map<nat, Place>, marked: set<nat>, b: nat)
    requires Inv(l, disk, ino, own) && Marked(l, disk, marked) && own.Keys <= marked
    requires b < l.size && !Used(l, disk, b)
    ensures Inv(l, Taken(l, disk, b), ino, own) && Marked(l, Taken(l, disk, b), marked + {b})
    ensures b !in marked && b !in own && b >= l.datastart
    ensures forall i: nat, k: nat | i < |ino| && k < NSLOTS ::
              Slot(Taken(l, disk, b), ino[i].addrs, k) == Slot(disk, ino[i].addrs, k)
  {
    var disk1 := Mark(l, disk, b, true);
    MarkKeeps(l, disk, |ino|, marked, b, true);
    MarkedFrame(l, disk1, disk1[b := ZERO_BLOCK], |ino|, marked + {b});
    UnownedWrite(l, disk, disk1[b := ZERO_BLOCK], ino, own);
  }

  function SetAddr(ino: seq<Inode>, i: nat, k: nat, b: nat): seq<Inode>
    requires i < |ino| && k < |ino[i].addrs|
  {
    ino[i := ino[i].(addrs := ino[i].addrs[k := b])]
  }

  /** Putting a fresh zeroed block into an empty direct or indirect-pointer slot. */
  lemma LinkAddr(l: Layout, disk: Disk, ino: seq<Inode>, own: map<nat, Place>, i: nat, k: nat, b: nat)
    requires Inv(l, disk, ino, own) && i < |ino| && k <= NDIRECT && ino[i].addrs[k] == 0
    requires b !in own && l.datastart <= b < l.size && disk[b] == ZERO_BLOCK
    ensures Inv(l, disk, SetAddr(ino, i, k, b), own[b := Place(i, k)])
    ensures forall k': nat | k' < NSLOTS ::
              Slot(disk, SetAddr(ino, i, k, b)[i].addrs, k') == if k' == k then b else Slot(disk, ino[i].addrs, k')
  {
    var ino' := SetAddr(ino, i, k, b);
    forall k': nat | k' < NSLOTS
      ensures Slot(disk, ino'[i].addrs, k') == if k' == k then b else Slot(disk, ino[i].addrs, k')
    {
      if k' > NDIRECT { ZeroWord(k' - NDIRECT - 1); }
    }
    forall i': nat, k': nat | i' < |ino'| && k' < NSLOTS && i' != i
      ensures Slot(disk, ino'[i'].addrs, k') == Slot(disk, ino[i'].addrs, k')
    {
    }
  }

  /** Putting a fresh block into an empty entry of the indirect block. */
  lemma LinkEntry(l: Layout, disk: Disk, ino: seq<Inode>, own: map<nat, Place>, i: nat, j: nat, b: nat)
    requires Inv(l, disk, ino, own) && i < |ino| && j < NINDIRECT && Slot(disk, ino[i].addrs, NDIRECT + 1 + j) == 0
    requires b !in own && l.datastart <= b < l.size && ino[i].addrs[NDIRECT] != 0
    ensures ino[i].addrs[NDIRECT] in own
    ensures var x := ino[i].addrs[NDIRECT]; var disk' := disk[x := SetWord(disk[x], j, b)];
            && Inv(l, disk', ino, own[b := Place(i, NDIRECT + 1 + j)])
            && forall k: nat | k < NSLOTS ::
                 Slot(disk', ino[i].addrs, k) == if k == NDIRECT + 1 + j then b else Slot(disk, ino[i].addrs, k)
  {
    var x := ino[i].addrs[NDIRECT];
    assert x == Slot(disk, ino[i].addrs, NDIRECT);
    var disk' := disk[x := SetWord(disk[x], j, b)];
    EntrySlots(disk, disk', ino[i].addrs, j, b);
    OtherSlots(l, disk, disk', ino, own, i, x);
  }

  /** The slots of the inode whose indirect block gets an entry. */
  lemma EntrySlots(disk: Disk, disk': Disk, a: seq<nat>, j: nat, b: nat)
    requires |a| == NDIRECT + 1 && j < NINDIRECT && IsWord(b) && 0 != a[NDIRECT] < |disk|
    requires disk' == disk[a[NDIRECT] := SetWord(disk[a[NDIRECT]], j, b)]
    ensures forall k: nat | k < NSLOTS :: Slot(disk', a, k) == if k == NDIRECT + 1 + j then b else Slot(disk, a, k)
  {
    forall k: nat | k < NSLOTS ensures Slot(disk', a, k) == if k == NDIRECT + 1 + j then b else Slot(disk, a, k) {
      if k > NDIRECT { WordAfterSet(disk[a[NDIRECT]], j, b, k - NDIRECT - 1); }
    }
  }

  /** The slots of the others. */
  lemma OtherSlots(l: Layout, disk: Disk, disk': Disk, ino: seq<Inode>, own: map<nat, Place>, i: nat, x: nat)
    requires Inv(l, disk, ino, own) && i < |ino| && x == ino[i].addrs[NDIRECT] && 0 != x < |disk| == |disk'|
    requires forall c: nat | c < |disk| && c != x :: disk'[c] == disk[c]
    ensures forall i': nat, k: nat | i' < |ino| && k < NSLOTS && i' != i ::
              Slot(disk', ino[i'].addrs, k) == Slot(disk, ino[i'].addrs, k)
  {
    assert x == Slot(disk, ino[i].addrs, NDIRECT);
    forall i': nat, k: nat | i' < |ino| && k < NSLOTS && i' != i
      ensures Slot(disk', ino[i'].addrs, k) == Slot(disk, ino[i'].addrs, k)
    {
      assert ino[i'].addrs[NDIRECT] == Slot(disk, ino[i'].addrs, NDIRECT);
      SlotFrame(disk, disk', ino[i'].addrs, k);
    }
  }

  /** Clearing a direct slot gives up its block. */
  lemma UnlinkAddr(l: Layout, disk: Disk, ino: seq<Inode>, own: map<nat, Place>, i: nat, k: nat)
    requires Inv(l, disk, ino, own) && i < |ino| && k < NDIRECT
    ensures Inv(l, disk, SetAddr(ino, i, k, 0), own - {ino[i].addrs[k]})
  {
    var b := ino[i].addrs[k];
    assert Slot(disk, ino[i].addrs, k) == b;
    var ino' := SetAddr(ino, i, k, 0);
    forall i': nat, k': nat | i' < |ino| && k' < NSLOTS
      ensures Slot(disk, ino'[i'].addrs, k') == if i' == i && k' == k then 0 else Slot(disk, ino[i'].addrs, k')
    {
    }
  }

  /** The blocks inode i has through its indirect pointer, itself included. */
  ghost function Indirect(own: map<nat, Place>, i: nat): set<nat> {
    set b | b in own && own[b].i == i && own[b].k >= NDIRECT
  }

  /** Clearing the indirect pointer gives up the indirect block and all its entries. */
  lemma UnlinkIndirect(l: Layout, disk: Disk, ino: seq<Inode>, own: map<nat, Place>, i: nat)
    requires Inv(l, disk, ino, own) && i < |ino|
    ensures Inv(l, disk, SetAddr(ino, i, NDIRECT, 0), own - Indirect(own, i))
  {
    var ino' := SetAddr(ino, i, NDIRECT, 0);
    forall i': nat, k': nat | i' < |ino| && k' < NSLOTS
      ensures Slot(disk, ino'[i'].addrs, k') == if i' == i && k' >= NDIRECT then 0 else Slot(disk, ino[i'].addrs, k')
    {
    }
  }

  /** Sizes play no part in ownership. */
  lemma SizeKeeps(l: Layout, disk: Disk, ino: seq<Inode>, own: map<nat, Place>, i: nat, size: nat)
    requires Inv(l, disk, ino, own) && i < |ino|
    ensures Inv(l, disk, ino[i := ino[i].(size := size)], own)
  {
    var ino' := ino[i := ino[i].(size := size)];
    assert forall j | 0 <= j < |ino| :: ino'[j].addrs == ino[j].addrs;
  }

  // ---------------------------------------------------------------------------------------
  // Inodes on disk.

  function InodeBlock(l: Layout, i: nat): nat { i / IPB + l.inodestart }

  function Load(l: Layout, disk: Disk, i: nat): Inode
    requires InodeBlock(l, i) < |disk|
  {
    var b, base := disk[InodeBlock(l, i)], 16 * (i % IPB);
    Inode(Word(b, base + 2), Words(b, base + 3, NDIRECT + 1))
  }

  ghost predicate Storable(n: Inode) {
    IsWord(n.size) && |n.addrs| == NDIRECT + 1 && forall a | a in n.addrs :: IsWord(a)
  }

  function Store(l: Layout, disk: Disk, i: nat, n: Inode): Disk
    requires InodeBlock(l, i) < |disk| && Storable(n)
  {
    disk[InodeBlock(l, i) := SetWords(disk[InodeBlock(l, i)], 16 * (i % IPB) + 2, [n.size] + n.addrs)]
  }

  /** Writing an inode and reading it back; the other inodes stay, also those of the same block. */
  lemma LoadAfterStore(l: Layout, disk: Disk, i: nat, n: Inode, j: nat)
    requires InodeBlock(l, i) < |disk| && InodeBlock(l, j) < |disk| && Storable(n)
    ensures Load(l, Store(l, disk, i, n), j) == if j == i then n else Load(l, disk, j)
  {
    var b, ws, at := disk[InodeBlock(l, i)], [n.size] + n.addrs, 16 * (i % IPB) + 2;
    if InodeBlock(l, i) == InodeBlock(l, j) {
      forall k: nat | k < NWORDS
        ensures Word(SetWords(b, at, ws), k) == if at <= k < at + 14 then ws[k - at] else Word(b, k)
      {
        WordAfterSets(b, at, ws, k);
      }
    }
  }

  ghost predicate Synced(l: Layout, disk: Disk, ino: seq<Inode>, i: nat)
    requires Sized(l, disk, ino) && i < |ino|
  {
    Load(l, disk, i) == ino[i]
  }

  /** Addresses fit the words they are stored in. */
  lemma AddressesStorable(l: Layout, disk: Disk, ino: seq<Inode>, own: map<nat, Place>, i: nat)
    requires Inv(l, disk, ino, own) && i < |ino| && IsWord(ino[i].size)
    ensures Storable(ino[i])
  {
    forall a | a in ino[i].addrs ensures IsWord(a) {
      var k :| 0 <= k < |ino[i].addrs| && ino[i].addrs[k] == a;
      assert Slot(disk, ino[i].addrs, k) == a;
    }
  }

  // ---------------------------------------------------------------------------------------
  // File contents.

  function ByteAt(disk: Disk, a: seq<nat>, o: nat): Byte
    requires |a| == NDIRECT + 1 && o < MAXFILE * BSIZE
  {
    var b := Slot(disk, a, DataSlot(o / BSIZE));
    if b < |disk| then disk[b][o % BSIZE] else 0
  }

  /** No holes: every byte below n has a block. */
  ghost predicate Mapped(disk: Disk, a: seq<nat>, n: nat)
    requires |a| == NDIRECT + 1
  {
    n <= MAXFILE * BSIZE && forall o: nat | o < n :: Slot(disk, a, DataSlot(o / BSIZE)) != 0
  }

  ghost predicate FileOk(disk: Disk, n: Inode) {
    |n.addrs| == NDIRECT + 1 && Mapped(disk, n.addrs, n.size)
  }

  ghost predicate AllFiles(disk: Disk, ino: seq<Inode>) {
    forall i: nat | i < |ino| :: FileOk(disk, ino[i])
  }

  ghost predicate AllSynced(l: Layout, disk: Disk, ino: seq<Inode>)
    requires Sized(l, disk, ino)
  {
    forall i: nat | i < |ino| :: Synced(l, disk, ino, i)
  }

  ghost function Contents(disk: Disk, n: Inode): seq<Byte>
    requires FileOk(disk, n)
  {
    seq(n.size, o requires 0 <= o < n.size => ByteAt(disk, n.addrs, o))
  }

  /** A file depends on its own blocks only. */
  lemma FileFrame(l: Layout, disk: Disk, disk': Disk, ino: seq<Inode>, own: map<nat, Place>, j: nat)
    requires Inv(l, disk, ino, own) && j < |ino| && FileOk(disk, ino[j]) && |disk'| == |disk|
    requires forall b | b in own && own[b].i == j :: disk'[b] == disk[b]
    ensures FileOk(disk', ino[j]) && Contents(disk', ino[j]) == Contents(disk, ino[j])
  {
    forall k: nat | k < NSLOTS ensures Slot(disk', ino[j].addrs, k) == Slot(disk, ino[j].addrs, k) {
      assert ino[j].addrs[NDIRECT] == Slot(disk, ino[j].addrs, NDIRECT);
      SlotFrame(disk, disk', ino[j].addrs, k);
    }
  }

  /** Overwriting part of one mapped block of a file changes those bytes of it and no others. */
  lemma WriteBytes(l: Layout, disk: Disk, ino: seq<Inode>, own: map<nat, Place>, i: nat, bn: nat, lo: nat,
                   data: seq<Byte>)
    requires Inv(l, disk, ino, own) && i < |ino| && bn < MAXFILE && lo + |data| <= BSIZE
    requires Slot(disk, ino[i].addrs, DataSlot(bn)) != 0
    ensures var x := Slot(disk, ino[i].addrs, DataSlot(bn));
            && x in own && own[x] == Place(i, DataSlot(bn)) && l.datastart <= x < l.size
            && var disk' := disk[x := Overwrite(disk[x], lo, data)];
            && Inv(l, disk', ino, own)
            && (forall k: nat | k < NSLOTS :: Slot(disk', ino[i].addrs, k) == Slot(disk, ino[i].addrs, k))
            && forall o: nat | o < MAXFILE * BSIZE && Slot(disk, ino[i].addrs, DataSlot(o / BSIZE)) != 0 ::
                 ByteAt(disk', ino[i].addrs, o)
                 == if o / BSIZE == bn && lo <= o % BSIZE < lo + |data| then data[o % BSIZE - lo]
                    else ByteAt(disk, ino[i].addrs, o)
  {
    var x := Slot(disk, ino[i].addrs, DataSlot(bn));
    var disk' := disk[x := Overwrite(disk[x], lo, data)];
    UnownedWrite(l, disk, disk', ino, own);
    forall o: nat | o < MAXFILE * BSIZE && Slot(disk, ino[i].addrs, DataSlot(o / BSIZE)) != 0
      ensures Slot(disk, ino[i].addrs, DataSlot(o / BSIZE)) == x <==> o / BSIZE == bn
    {
      assert own[Slot(disk, ino[i].addrs, DataSlot(o / BSIZE))] == Place(i, DataSlot(o / BSIZE));
    }
  }

  // ---------------------------------------------------------------------------------------
  // What an operation on one file leaves alone.

  /** Only inode i, its blocks and the free map may differ; inode copies on disk are as before. */
  ghost predicate OnlyFile(l: Layout, disk: Disk, disk': Disk, ino: seq<Inode>, ino': seq<Inode>,
                           own: map<nat, Place>, own': map<nat, Place>, i: nat) {
    && |disk'| == |disk| == l.size && |ino'| == |ino| && i < |ino| && ino'[i].size == ino[i].size
    && (forall j: nat | j < |ino| && j != i :: ino'[j] == ino[j])
    && (forall b | b in own && own[b].i != i :: b in own' && own'[b] == own[b] && b < l.size && disk'[b] == disk[b])
    && (forall b | b in own' && own'[b].i != i :: b in own && own[b] == own'[b])
    && (forall b: nat | b < l.bmapstart && b < l.size :: disk'[b] == disk[b])
  }

  lemma OnlyFileTrans(l: Layout, d0: Disk, d1: Disk, d2: Disk, n0: seq<Inode>, n1: seq<Inode>, n2: seq<Inode>,
                      o0: map<nat, Place>, o1: map<nat, Place>, o2: map<nat, Place>, i: nat)
    requires OnlyFile(l, d0, d1, n0, n1, o0, o1, i) && OnlyFile(l, d1, d2, n1, n2, o1, o2, i)
    ensures OnlyFile(l, d0, d2, n0, n2, o0, o2, i)
  {
  }

  /** Every mapped byte of the file keeps its block and its value. */
  ghost predicate BytesKept(disk: Disk, a: seq<nat>, disk': Disk, a': seq<nat>)
    requires |a| == NDIRECT + 1 == |a'|
  {
    forall o: nat | o < MAXFILE * BSIZE && Slot(disk, a, DataSlot(o / BSIZE)) != 0 ::
      Slot(disk', a', DataSlot(o / BSIZE)) != 0 && ByteAt(disk', a', o) == ByteAt(disk, a, o)
  }

  lemma BytesKeptTrans(d0: Disk, a0: seq<nat>, d1: Disk, a1: seq<nat>, d2: Disk, a2: seq<nat>)
    requires |a0| == |a1| == |a2| == NDIRECT + 1 && BytesKept(d0, a0, d1, a1) && BytesKept(d1, a1, d2, a2)
    ensures BytesKept(d0, a0, d2, a2)
  {
    forall o: nat | o < MAXFILE * BSIZE && Slot(d0, a0, DataSlot(o / BSIZE)) != 0
      ensures Slot(d2, a2, DataSlot(o / BSIZE)) != 0 && ByteAt(d2, a2, o) == ByteAt(d0, a0, o)
    {
      assert Slot(d1, a1, DataSlot(o / BSIZE)) != 0;
    }
  }

  /** Filling an empty slot, and changing only fresh blocks and the indirect block, keeps bytes. */
  lemma FillKeepsBytes(l: Layout, disk: Disk, disk': Disk, ino: seq<Inode>, own: map<nat, Place>, i: nat, a': seq<nat>)
    requires Inv(l, disk, ino, own) && i < |ino| && |a'| == NDIRECT + 1 && |disk'| == |disk|
    requires forall k: nat | k < NSLOTS && Slot(disk, ino[i].addrs, k) != 0 ::
             Slot(disk', a', k) == Slot(disk, ino[i].addrs, k)
    requires forall b | b in own && own[b] != Place(i, NDIRECT) :: disk'[b] == disk[b]
    ensures BytesKept(disk, ino[i].addrs, disk', a')
  {
    forall o: nat | o < MAXFILE * BSIZE && Slot(disk, ino[i].addrs, DataSlot(o / BSIZE)) != 0
      ensures Slot(disk', a', DataSlot(o / BSIZE)) != 0 && ByteAt(disk', a', o) == ByteAt(disk, ino[i].addrs, o)
    {
      assert own[Slot(disk, ino[i].addrs, DataSlot(o / BSIZE))] == Place(i, DataSlot(o / BSIZE));
    }
  }

  // ---------------------------------------------------------------------------------------
  // bmap's two ways of adding a block to a file.

  function Linked(l: Layout, disk: Disk, x: nat, j: nat, b: nat): Disk
    requires BitBlock(l, b) < |disk| && b < |disk| && x < |disk| && j < NINDIRECT && IsWord(b)
  {
    Taken(l, disk, b)[x := SetWord(Taken(l, disk, b)[x], j, b)]
  }

  /** A free block allocated and put into an empty direct or indirect-pointer slot. */
  lemma AddrAdded(l: Layout, disk: Disk, ino: seq<Inode>, own: map<nat, Place>, i: nat, k: nat, b: nat)
    requires Inv(l, disk, ino, own) && Marked(l, disk, own.Keys) && i < |ino| && k <= NDIRECT && ino[i].addrs[k] == 0
    requires b < l.size && !Used(l, disk, b)
    ensures Inv(l, Taken(l, disk, b), SetAddr(ino, i, k, b), own[b := Place(i, k)])
    ensures Marked(l, Taken(l, disk, b), own[b := Place(i, k)].Keys) && b !in own
    ensures forall k': nat | k' < NSLOTS ::
              Slot(Taken(l, disk, b), SetAddr(ino, i, k, b)[i].addrs, k') == if k' == k then b
                else Slot(disk, ino[i].addrs, k')
  {
    AllocKeeps(l, disk, ino, own, own.Keys, b);
    LinkAddr(l, Taken(l, disk, b), ino, own, i, k, b);
    assert own[b := Place(i, k)].Keys == own.Keys + {b};
  }

  lemma AddrAddedFrame(l: Layout, disk: Disk, ino: seq<Inode>, own: map<nat, Place>, i: nat, k: nat, b: nat)
    requires Inv(l, disk, ino, own) && Marked(l, disk, own.Keys) && i < |ino| && k <= NDIRECT && ino[i].addrs[k] == 0
    requires b < l.size && !Used(l, disk, b)
    ensures OnlyFile(l, disk, Taken(l, disk, b), ino, SetAddr(ino, i, k, b), own, own[b := Place(i, k)], i)
    ensures BytesKept(disk, ino[i].addrs, Taken(l, disk, b), SetAddr(ino, i, k, b)[i].addrs)
  {
    AddrAdded(l, disk, ino, own, i, k, b);
    TakenFrame(l, disk, Taken(l, disk, b), ino, SetAddr(ino, i, k, b), own, i, k, b);
  }

  lemma TakenFrame(l: Layout, disk: Disk, disk': Disk, ino: seq<Inode>, ino': seq<Inode>, own: map<nat, Place>,
                   i: nat, k: nat, b: nat)
    requires Inv(l, disk, ino, own) && |disk'| == |disk| && i < |ino| && l.datastart <= b && b !in own
    requires |ino'| == |ino| && ino' == ino[i := ino[i].(addrs := ino'[i].addrs)] && |ino'[i].addrs| == NDIRECT + 1
    requires forall c: nat | c < l.bmapstart :: disk'[c] == disk[c]
    requires forall c: nat | l.datastart <= c < l.size && c != b && c != ino[i].addrs[NDIRECT] :: disk'[c] == disk[c]
    requires forall k: nat | k < NSLOTS && Slot(disk, ino[i].addrs, k) != 0 ::
             Slot(disk', ino'[i].addrs, k) == Slot(disk, ino[i].addrs, k)
    ensures OnlyFile(l, disk, disk', ino, ino', own, own[b := Place(i, k)], i)
    ensures BytesKept(disk, ino[i].addrs, disk', ino'[i].addrs)
  {
    var x := ino[i].addrs[NDIRECT];
    assert Slot(disk, ino[i].addrs, NDIRECT) == x;
    assert x in own ==> own[x] == Place(i, NDIRECT);
    FillKeepsBytes(l, disk, disk', ino, own, i, ino'[i].addrs);
  }

  /** A free block allocated and put into an empty entry of the indirect block. */
  lemma EntryAdded(l: Layout, disk: Disk, ino: seq<Inode>, own: map<nat, Place>, i: nat, j: nat, b: nat)
    requires Inv(l, disk, ino, own) && Marked(l, disk, own.Keys) && i < |ino| && j < NINDIRECT
    requires Slot(disk, ino[i].addrs, NDIRECT + 1 + j) == 0 && 0 != ino[i].addrs[NDIRECT] < l.size
    requires b < l.size && !Used(l, disk, b)
    ensures Inv(l, Linked(l, disk, ino[i].addrs[NDIRECT], j, b), ino, own[b := Place(i, NDIRECT + 1 + j)])
    ensures Marked(l, Linked(l, disk, ino[i].addrs[NDIRECT], j, b), own[b := Place(i, NDIRECT + 1 + j)].Keys) &&
            b !in own
    ensures forall k: nat | k < NSLOTS ::
              Slot(Linked(l, disk, ino[i].addrs[NDIRECT], j, b), ino[i].addrs, k)
              == if k == NDIRECT + 1 + j then b else Slot(disk, ino[i].addrs, k)
  {
    var disk1 := Taken(l, disk, b);
    AllocKeeps(l, disk, ino, own, own.Keys, b);
    LinkEntry(l, disk1, ino, own, i, j, b);
    assert own[b := Place(i, NDIRECT + 1 + j)].Keys == own.Keys + {b};
    MarkedFrame(l, disk1, Linked(l, disk, ino[i].addrs[NDIRECT], j, b), |ino|, own.Keys + {b});
  }

  lemma EntryAddedFrame(l: Layout, disk: Disk, disk': Disk, ino: seq<Inode>, own: map<nat, Place>, i: nat, j: nat,
                        b: nat)
    requires Inv(l, disk, ino, own) && Marked(l, disk, own.Keys) && i < |ino| && j < NINDIRECT
    requires Slot(disk, ino[i].addrs, NDIRECT + 1 + j) == 0 && 0 != ino[i].addrs[NDIRECT] < l.size
    requires b < l.size && !Used(l, disk, b) && disk' == Linked(l, disk, ino[i].addrs[NDIRECT], j, b)
    ensures OnlyFile(l, disk, disk', ino, ino, own, own[b := Place(i, NDIRECT + 1 + j)], i)
    ensures BytesKept(disk, ino[i].addrs, disk', ino[i].addrs)
  {
    EntrySlotsKept(l, disk, disk', ino, own, i, j, b);
    TakenFrame(l, disk, disk', ino, ino, own, i, NDIRECT + 1 + j, b);
  }

  lemma EntrySlotsKept(l: Layout, disk: Disk, disk': Disk, ino: seq<Inode>, own: map<nat, Place>, i: nat, j: nat,
                       b: nat)
    requires Inv(l, disk, ino, own) && Marked(l, disk, own.Keys) && i < |ino| && j < NINDIRECT
    requires Slot(disk, ino[i].addrs, NDIRECT + 1 + j) == 0 && 0 != ino[i].addrs[NDIRECT] < l.size
    requires b < l.size && !Used(l, disk, b) && disk' == Linked(l, disk, ino[i].addrs[NDIRECT], j, b)
    ensures b !in own && b >= l.datastart && (forall c: nat | c < l.bmapstart :: disk'[c] == disk[c])
    ensures forall c: nat | l.datastart <= c < l.size && c != b && c != ino[i].addrs[NDIRECT] :: disk'[c] == disk[c]
    ensures forall k: nat | k < NSLOTS && Slot(disk, ino[i].addrs, k) != 0 ::
            Slot(disk', ino[i].addrs, k) == Slot(disk, ino[i].addrs, k)
  {
    assert ino[i].addrs[NDIRECT] >= l.datastart && l.bmapstart <= BitBlock(l, b) < l.datastart by {
      assert Slot(disk, ino[i].addrs, NDIRECT) == ino[i].addrs[NDIRECT];
    }
    assert forall k: nat | k < NSLOTS ::
             Slot(disk', ino[i].addrs, k) == if k == NDIRECT + 1 + j then b else Slot(disk, ino[i].addrs, k) by {
      EntryAdded(l, disk, ino, own, i, j, b);
    }
    assert b !in own && b >= l.datastart by { EntryAdded(l, disk, ino, own, i, j, b); }
  }

  // ---------------------------------------------------------------------------------------
  // The state of the file layer as one value.

  datatype Fs = Fs(disk: Disk, ino: seq<Inode>, own: map<nat, Place>)

  ghost predicate Good(l: Layout, s: Fs) {
    Inv(l, s.disk, s.ino, s.own) && Marked(l, s.disk, s.own.Keys)
  }

  lemma ReadyAt(l: Layout, s: Fs, i: nat)
    requires Good(l, s) && i < |s.ino|
    ensures Sized(l, s.disk, s.ino) && s.ino[i].addrs[NDIRECT] < |s.disk|
    ensures forall b: nat | b < l.datastart :: Used(l, s.disk, b)
  {
    assert Slot(s.disk, s.ino[i].addrs, NDIRECT) == s.ino[i].addrs[NDIRECT];
    SlotInRange(l, s.disk, s.ino, s.own, i, NDIRECT);
  }

  /** An operation on file i so far: others are untouched and its own bytes still there. */
  ghost predicate Kept(l: Layout, s: Fs, s': Fs, i: nat) {
    && OnlyFile(l, s.disk, s'.disk, s.ino, s'.ino, s.own, s'.own, i)
    && |s.ino[i].addrs| == NDIRECT + 1 == |s'.ino[i].addrs|
    && BytesKept(s.disk, s.ino[i].addrs, s'.disk, s'.ino[i].addrs)
  }

  ghost predicate Free(l: Layout, disk: Disk, b: nat) {
    b < |disk| && BitBlock(l, b) < |disk| && !Used(l, disk, b) && IsWord(b)
  }

  /** No block before b is free. */
  ghost predicate First(l: Layout, disk: Disk, b: nat) {
    forall c: nat | c < b && BitBlock(l, c) < |disk| :: Used(l, disk, c)
  }

  ghost function AddAddr(l: Layout, s: Fs, i: nat, k: nat, b: nat): Fs
    requires Free(l, s.disk, b) && i < |s.ino| && k < |s.ino[i].addrs|
  {
    Fs(Taken(l, s.disk, b), SetAddr(s.ino, i, k, b), s.own[b := Place(i, k)])
  }

  ghost function AddEntry(l: Layout, s: Fs, i: nat, j: nat, b: nat): Fs
    requires Free(l, s.disk, b) && i < |s.ino| && |s.ino[i].addrs| == NDIRECT + 1
    requires s.ino[i].addrs[NDIRECT] < |s.disk| && j < NINDIRECT
  {
    Fs(Linked(l, s.disk, s.ino[i].addrs[NDIRECT], j, b), s.ino, s.own[b := Place(i, NDIRECT + 1 + j)])
  }

  lemma AddrStep(l: Layout, s: Fs, i: nat, k: nat, b: nat)
    requires Good(l, s) && i < |s.ino| && k <= NDIRECT && s.ino[i].addrs[k] == 0 && Free(l, s.disk, b)
    ensures Good(l, AddAddr(l, s, i, k, b)) && Kept(l, s, AddAddr(l, s, i, k, b), i)
  {
    AddrAdded(l, s.disk, s.ino, s.own, i, k, b);
    AddrAddedFrame(l, s.disk, s.ino, s.own, i, k, b);
  }

  lemma EntryStep(l: Layout, s: Fs, i: nat, j: nat, b: nat)
    requires Good(l, s) && i < |s.ino| && j < NINDIRECT && Free(l, s.disk, b)
    requires Slot(s.disk, s.ino[i].addrs, NDIRECT + 1 + j) == 0 && 0 != s.ino[i].addrs[NDIRECT] < l.size
    ensures Good(l, AddEntry(l, s, i, j, b)) && Kept(l, s, AddEntry(l, s, i, j, b), i)
    ensures Slot(AddEntry(l, s, i, j, b).disk, s.ino[i].addrs, NDIRECT + 1 + j) == b
  {
    EntryAdded(l, s.disk, s.ino, s.own, i, j, b);
    EntryAddedFrame(l, s.disk, AddEntry(l, s, i, j, b).disk, s.ino, s.own, i, j, b);
  }

  lemma KeptTrans(l: Layout, s0: Fs, s1: Fs, s2: Fs, i: nat)
    requires Kept(l, s0, s1, i) && Kept(l, s1, s2, i)
    ensures Kept(l, s0, s2, i)
  {
    OnlyFileTrans(l, s0.disk, s1.disk, s2.disk, s0.ino, s1.ino, s2.ino, s0.own, s1.own, s2.own, i);
    BytesKeptTrans(s0.disk, s0.ino[i].addrs, s1.disk, s1.ino[i].addrs, s2.disk, s2.ino[i].addrs);
  }

  /** The blocks an operation has added to a file, latest last. */
  datatype Growth = Same | AddedAddr(before: Growth, k: nat, b: nat) | AddedEntry(before: Growth, j: nat, b: nat)

  ghost predicate CanAddAddr(l: Layout, s: Fs, i: nat, k: nat, b: nat) {
    i < |s.ino| && k <= NDIRECT && k < |s.ino[i].addrs| && s.ino[i].addrs[k] == 0 && Free(l, s.disk, b) &&
      First(l, s.disk, b)
  }

  ghost predicate CanAddEntry(l: Layout, s: Fs, i: nat, j: nat, b: nat) {
    && i < |s.ino| && |s.ino[i].addrs| == NDIRECT + 1 && 0 != s.ino[i].addrs[NDIRECT] < |s.disk| && j < NINDIRECT
    && Slot(s.disk, s.ino[i].addrs, NDIRECT + 1 + j) == 0 && Free(l, s.disk, b) && First(l, s.disk, b)
  }

  /** File i has grown from s to s' by the blocks of g, each the first that was free. */
  ghost predicate Grew(l: Layout, s: Fs, s': Fs, i: nat, g: Growth)
    decreases g
  {
    match g
    case Same => s' == s
    case AddedAddr(before, k, b) =>
      exists s1 :: Grew(l, s, s1, i, before) && CanAddAddr(l, s1, i, k, b) && s' == AddAddr(l, s1, i, k, b)
    case AddedEntry(before, j, b) =>
      exists s1 :: Grew(l, s, s1, i, before) && CanAddEntry(l, s1, i, j, b) && s' == AddEntry(l, s1, i, j, b)
  }

  lemma EntryGrew(l: Layout, s: Fs, s1: Fs, s2: Fs, i: nat, g: Growth, j: nat, b: nat)
    requires Grew(l, s, s1, i, g) && CanAddEntry(l, s1, i, j, b) && s2 == AddEntry(l, s1, i, j, b)
    ensures Grew(l, s, s2, i, AddedEntry(g, j, b)) && Slot(s2.disk, s2.ino[i].addrs, NDIRECT + 1 + j) == b
  {
    WordAfterSet(Taken(l, s1.disk, b)[s1.ino[i].addrs[NDIRECT]], j, b, j);
  }

  /** However a file has grown, ownership holds and nothing that was mapped has changed. */
  lemma {:induction false} GrewKeeps(l: Layout, s: Fs, s': Fs, i: nat, g: Growth)
    requires Good(l, s) && i < |s.ino| && Grew(l, s, s', i, g)
    ensures Good(l, s') && Kept(l, s, s', i)
    decreases g
  {
    match g
    case Same =>
    case AddedAddr(before, k, b) =>
      var s1 :| Grew(l, s, s1, i, before) && CanAddAddr(l, s1, i, k, b) && s' == AddAddr(l, s1, i, k, b);
      GrewKeeps(l, s, s1, i, before);
      AddrStep(l, s1, i, k, b);
      KeptTrans(l, s, s1, s', i);
    case AddedEntry(before, j, b) =>
      var s1 :| Grew(l, s, s1, i, before) && CanAddEntry(l, s1, i, j, b) && s' == AddEntry(l, s1, i, j, b);
      GrewKeeps(l, s, s1, i, before);
      EntryStep(l, s1, i, j, b);
      KeptTrans(l, s, s1, s', i);
  }

  // ---------------------------------------------------------------------------------------
  // itrunc.

  /** A direct block given back. */
  lemma FreeAddrStep(l: Layout, s: Fs, i: nat, k: nat)
    requires Good(l, s) && i < |s.ino| && k < NDIRECT && s.ino[i].addrs[k] != 0
    ensures var b := s.ino[i].addrs[k];
            && b < l.size && BitBlock(l, b) < |s.disk| && Used(l, s.disk, b)
            && var s' := Fs(Mark(l, s.disk, b, false), SetAddr(s.ino, i, k, 0), s.own - {b});
            Good(l, s') && OnlyFile(l, s.disk, s'.disk, s.ino, s'.ino, s.own, s'.own, i)
  {
    var b := s.ino[i].addrs[k];
    assert Slot(s.disk, s.ino[i].addrs, k) == b;
    var s' := Fs(Mark(l, s.disk, b, false), SetAddr(s.ino, i, k, 0), s.own - {b});
    MarkKeeps(l, s.disk, |s.ino|, s.own.Keys, b, false);
    assert s'.own.Keys == s.own.Keys - {b};
    FreedAddr(l, s, s', i, k, b);
    FreedFrame(l, s, s', i, k, b);
  }

  lemma FreedFrame(l: Layout, s: Fs, s': Fs, i: nat, k: nat, b: nat)
    requires Inv(l, s.disk, s.ino, s.own) && i < |s.ino| && k < NDIRECT && b == s.ino[i].addrs[k] &&
             l.datastart <= b < l.size
    requires s' == Fs(Mark(l, s.disk, b, false), SetAddr(s.ino, i, k, 0), s.own - {b})
    ensures OnlyFile(l, s.disk, s'.disk, s.ino, s'.ino, s.own, s'.own, i)
  {
    assert Slot(s.disk, s.ino[i].addrs, k) == b;
  }

  lemma FreedAddr(l: Layout, s: Fs, s': Fs, i: nat, k: nat, b: nat)
    requires Inv(l, s.disk, s.ino, s.own) && i < |s.ino| && k < NDIRECT && b == s.ino[i].addrs[k] &&
             l.datastart <= b < l.size
    requires s' == Fs(Mark(l, s.disk, b, false), SetAddr(s.ino, i, k, 0), s.own - {b})
    ensures Inv(l, s'.disk, s'.ino, s'.own)
  {
    UnownedWrite(l, s.disk, s'.disk, s.ino, s.own);
    UnlinkAddr(l, s'.disk, s.ino, s.own, i, k);
  }

  /** The blocks of inode i named by the first j entries of its indirect block. */
  ghost function Entries(own: map<nat, Place>, i: nat, j: nat): set<nat> {
    set b | b in own && own[b].i == i && NDIRECT < own[b].k <= NDIRECT + j
  }

  /** The only block a slot can own is the one it names. */
  lemma OwnedBy(l: Layout, disk: Disk, ino: seq<Inode>, own: map<nat, Place>, i: nat, k: nat)
    requires Inv(l, disk, ino, own) && i < |ino| && k < NSLOTS
    ensures forall c | c in own :: own[c] == Place(i, k) ==> c == Slot(disk, ino[i].addrs, k) != 0
  {
    forall c | c in own ensures own[c] == Place(i, k) ==> c == Slot(disk, ino[i].addrs, k) != 0 {
      assert Slot(disk, ino[own[c].i].addrs, own[c].k) == c;
    }
  }

  /** Giving back entry j, if there is one, when the earlier ones have been given back. */
  lemma FreeEntryStep(l: Layout, disk: Disk, ino: seq<Inode>, own: map<nat, Place>, i: nat, j: nat)
    requires Inv(l, disk, ino, own) && Marked(l, disk, own.Keys - Entries(own, i, j)) && i < |ino| && j < NINDIRECT
    ensures var b := Slot(disk, ino[i].addrs, NDIRECT + 1 + j);
            if b == 0 then Entries(own, i, j + 1) == Entries(own, i, j)
            else
              && b < l.size && BitBlock(l, b) < |disk| && Used(l, disk, b)
              && Inv(l, Mark(l, disk, b, false), ino, own) &&
                   Marked(l, Mark(l, disk, b, false), own.Keys - Entries(own, i, j + 1))
  {
    var b := Slot(disk, ino[i].addrs, NDIRECT + 1 + j);
    OwnedBy(l, disk, ino, own, i, NDIRECT + 1 + j);
    if b == 0 {
      assert Entries(own, i, j + 1) == Entries(own, i, j);
    } else {
      assert Entries(own, i, j + 1) == Entries(own, i, j) + {b};
      MarkKeeps(l, disk, |ino|, own.Keys - Entries(own, i, j), b, false);
      assert own.Keys - Entries(own, i, j) - {b} == own.Keys - Entries(own, i, j + 1);
      UnownedWrite(l, disk, Mark(l, disk, b, false), ino, own);
    }
  }

  /** Giving back the indirect block itself, when all its entries have been. */
  lemma FreeIndirectStep(l: Layout, disk: Disk, ino: seq<Inode>, own: map<nat, Place>, i: nat)
    requires Inv(l, disk, ino, own) && Marked(l, disk, own.Keys - Entries(own, i, NINDIRECT)) && i < |ino|
    requires ino[i].addrs[NDIRECT] != 0
    ensures var b := ino[i].addrs[NDIRECT];
            && b < l.size && BitBlock(l, b) < |disk| && Used(l, disk, b)
            && Good(l, Fs(Mark(l, disk, b, false), SetAddr(ino, i, NDIRECT, 0), own - Indirect(own, i)))
  {
    var b := ino[i].addrs[NDIRECT];
    assert Slot(disk, ino[i].addrs, NDIRECT) == b;
    var disk' := Mark(l, disk, b, false);
    MarkKeeps(l, disk, |ino|, own.Keys - Entries(own, i, NINDIRECT), b, false);
    UnownedWrite(l, disk, disk', ino, own);
    UnlinkIndirect(l, disk', ino, own, i);
    OwnedBy(l, disk, ino, own, i, NDIRECT);
    assert Indirect(own, i) == Entries(own, i, NINDIRECT) + {b};
    assert (own - Indirect(own, i)).Keys == own.Keys - Entries(own, i, NINDIRECT) - {b};
  }

  /** An operation that has so far given back blocks of file i, and touched nothing else. */
  ghost predicate Shrunk(l: Layout, s0: Fs, s: Fs, i: nat) {
    Good(l, s) && OnlyFile(l, s0.disk, s.disk, s0.ino, s.ino, s0.own, s.own, i)
  }

  lemma ShrunkTrans(l: Layout, s0: Fs, s1: Fs, s2: Fs, i: nat)
    requires Shrunk(l, s0, s1, i) && Shrunk(l, s1, s2, i)
    ensures Shrunk(l, s0, s2, i)
  {
    OnlyFileTrans(l, s0.disk, s1.disk, s2.disk, s0.ino, s1.ino, s2.ino, s0.own, s1.own, s2.own, i);
  }

  lemma FreeIndirectFrame(l: Layout, s: Fs, s': Fs, i: nat)
    requires Good(l, s) && i < |s.ino| && Good(l, s') && |s'.disk| == |s.disk|
    requires forall b: nat | b < l.bmapstart || l.datastart <= b < l.size :: s'.disk[b] == s.disk[b]
    requires s'.ino == SetAddr(s.ino, i, NDIRECT, 0) && s'.own == s.own - Indirect(s.own, i)
    ensures Shrunk(l, s, s', i)
  {
  }

  /** With every address cleared, the file owns nothing. */
  lemma NothingOwned(l: Layout, s: Fs, i: nat)
    requires Good(l, s) && i < |s.ino| && forall k | 0 <= k <= NDIRECT :: s.ino[i].addrs[k] == 0
    ensures forall b | b in s.own :: s.own[b].i != i
  {
    forall b | b in s.own ensures s.own[b].i != i {
      assert Slot(s.disk, s.ino[s.own[b].i].addrs, s.own[b].k) == b;
    }
  }
}
