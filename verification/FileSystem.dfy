/** The file layer's code: block allocation, block maps, truncation, and reading and writing
    bytes (kernel/fs.c, filewrite of kernel/file.c).

    `disk` is what the buffer cache shows, and `logged` the blocks passed to log_write in the
    current operation. */
module FileSystem {
  import opened Common
  import opened BlockFormat
  import opened FileLayer
  import opened FileContents
  import opened FileBudget
  import opened FileLog

  /** What FirstClear finds in the bitmap block whose first bit is b's. */
  lemma RowScanned(l: Layout, disk: Disk, b: nat, bi: nat)
    requires BitBlock(l, b) < |disk| && b % BPB == 0 && bi <= BPB
    requires forall c: nat | c < bi :: BlockBit(disk[BitBlock(l, b)], c)
    ensures forall c: nat | b <= c < b + bi :: BitBlock(l, c) < |disk| && Used(l, disk, c)
    ensures bi < BPB ==>
              BitBlock(l, b + bi) == BitBlock(l, b) && Used(l, disk, b + bi) == BlockBit(disk[BitBlock(l, b)], bi)
  {
    forall c: nat | b <= c < b + bi ensures BitBlock(l, c) < |disk| && Used(l, disk, c) {
      assert c / BPB == b / BPB && c % BPB == c - b;
    }
    if bi < BPB { assert (b + bi) / BPB == b / BPB && (b + bi) % BPB == bi; }
  }

  lemma SliceAppend(c: seq<Byte>, a: nat, b: nat, d: nat)
    requires a <= b <= d <= |c|
    ensures c[a..b] + c[b..d] == c[a..d]
  {
  }

  lemma Delivered(c: seq<Byte>, off: nat, tot: nat, m: nat, k: nat, more: seq<Byte>)
    requires k <= m && off + tot + m <= |c| && more == c[off + tot..off + tot + m]
    ensures c[off..off + tot] + more[..k] == c[off..off + tot + k]
  {
    assert more[..k] == c[off + tot..off + tot + k];
    SliceAppend(c, off, off + tot, off + tot + k);
  }

  /** How much one round copies: to the end of its block or of the n bytes. */
  method RoundSize(off: nat, tot: nat, n: nat, at: nat) returns (m: nat)
    requires tot < n && at == off + tot
    ensures 0 < m && at % BSIZE + m <= BSIZE && tot + m <= n && m == RoundLen(off, tot, n)
  {
    m := if n - tot < BSIZE - at % BSIZE then n - tot else BSIZE - at % BSIZE;
  }

  /** How a round of writei's loop ends. */
  datatype RoundEnd = RoundOver | DiskFull | CopyFault

  /** Byte faultAt of the n written at off is in the round that starts after tot. */
  ghost predicate FaultIn(off: nat, tot: nat, n: nat, faultAt: nat) {
    tot < n && tot <= faultAt < tot + RoundLen(off, tot, n)
  }

  /** What was copied in that round before the fault, if anything. */
  ghost predicate CutShort(off: nat, r: nat, src: seq<Byte>, faultAt: nat, extra: seq<Byte>) {
    extra == [] || (FaultIn(off, r, |src|, faultAt) && faultAt <= |src| && extra == src[r..faultAt])
  }

  ghost predicate Refused(size: nat, off: nat, n: nat) {
    off > size || off + n > MAXFILE * BSIZE
  }

  /** The data have been written from off on into file i, and smeared after by extra. */
  ghost predicate Smeared(f0: seq<seq<Byte>>, f: seq<seq<Byte>>, i: nat, off: nat, data: seq<Byte>, extra: seq<Byte>) {
    i < |f0| && if off <= |f0[i]| then f == f0[i := Smear(Splice(f0[i], off, data), off + |data|, extra)]
                else f == f0 && data == [] && extra == []
  }

  lemma NotSmeared(f0: seq<seq<Byte>>, f: seq<seq<Byte>>, i: nat, off: nat, data: seq<Byte>)
    ensures Smeared(f0, f, i, off, data, []) <==> Progress(f0, f, i, off, data)
  {
    if i < |f0| && off <= |f0[i]| { SmearNothing(Splice(f0[i], off, data), off + |data|); }
  }

  /** What a call of writei for a chunk means for the whole write. */
  lemma WriteiProgress(f0: seq<seq<Byte>>, f: seq<seq<Byte>>, f': seq<seq<Byte>>, i: nat, start: nat, data: seq<Byte>,
                       chunk: seq<Byte>, r: int, extra: seq<Byte>)
    requires i < |f| && Progress(f0, f, i, start, data)
    requires if Refused(|f[i]|, start + |data|, |chunk|) then r == -1 && f' == f && extra == []
             else 0 <= r <= |chunk| && Smeared(f, f', i, start + |data|, chunk[..r], extra)
    ensures Smeared(f0, f', i, start, data + Done(chunk, r), extra)
    ensures r > 0 ==> start + |data| + r <= MAXFILE * BSIZE
  {
    var at, more := start + |data|, Done(chunk, r);
    if Refused(|f[i]|, at, |chunk|) {
      assert data + more == data;
      NotSmeared(f0, f, i, start, data);
    } else {
      assert chunk[..r] == more;
      var f1 := f[i := Splice(f[i], at, more)];
      ProgressMore(f0, f, f1, i, start, data, more);
      assert f' == f1[i := Smear(f1[i], at + |more|, extra)];
    }
  }

  /** What a fault in a chunk leaves, as part of the whole write. */
  lemma CutPart(src: seq<Byte>, off: nat, k: nat, n: nat, r: nat, faultAt: nat, extra: seq<Byte>)
    requires k + n <= |src| && k <= faultAt && r <= n && CutShort(off, r, src[k..k + n], faultAt - k, extra)
    ensures extra == [] || (k + r <= faultAt < |src| && extra == src[k + r..faultAt])
  {
    if extra != [] {
      RoundEdge(off, r, n);
      PartOfPart(src, k, n, r, faultAt - k);
    }
  }

  lemma FaultWithin(off: nat, r: nat, n: nat, faultAt: nat)
    ensures FaultIn(off, r, n, faultAt) ==> faultAt < n
  {
    if r < n { RoundEdge(off, r, n); }
  }

  lemma PartOfPart(src: seq<Byte>, k: nat, n: nat, a: nat, b: nat)
    requires k + n <= |src| && a <= b <= n
    ensures src[k..k + n][a..b] == src[k + a..k + b]
  {
    var part := src[k..k + n];
    forall j | 0 <= j < b - a ensures part[a..b][j] == src[k + a..k + b][j] {
      assert part[a + j] == src[k + (a + j)];
    }
  }

  lemma PrefixPart(src: seq<Byte>, k: nat, n: nat, r: int)
    requires k + n <= |src| && r <= n
    ensures src[..k] + Done(src[k..k + n], r) == src[..if r > 0 then k + r else k]
  {
  }

  /** The first clear bit below the limit, or the limit. */
  method FirstClear(bits: Block, limit: nat) returns (bi: nat)
    requires limit <= BPB
    ensures bi <= limit && (bi < limit ==> !BlockBit(bits, bi)) && forall c: nat | c < bi :: BlockBit(bits, c)
  {
    bi := 0;
    while bi < limit
      invariant bi <= limit && forall c: nat | c < bi :: BlockBit(bits, c)
    {
      if !BlockBit(bits, bi) { return; }
      bi := bi + 1;
    }
  }

  class FileSystem {
    const l: Layout
    var disk: Disk
    var ino: seq<Inode>
    ghost var own: map<nat, Place>
    ghost var logged: set<nat>

    ghost function Abs(): Fs
      reads this
    {
      Fs(disk, ino, own)
    }

    ghost predicate Valid()
      reads this
    {
      Whole(l, Abs())
    }

    /** What the allocator needs. */
    ghost predicate Ready()
      reads this
    {
      Sized(l, disk, ino) && forall b: nat | b < l.datastart :: Used(l, disk, b)
    }

    ghost predicate Full()
      reads this
      requires Sized(l, disk, ino)
    {
      forall b: nat | b < l.size :: Used(l, disk, b)
    }

    /** The disk as mkfs leaves it, taken as given. */
    constructor (l: Layout, disk: Disk, ino: seq<Inode>, ghost own: map<nat, Place>)
      requires Whole(l, Fs(disk, ino, own))
      ensures Valid() && this.l == l && this.disk == disk && this.ino == ino && this.own == own && logged == {}
    {
      this.l, this.disk, this.ino := l, disk, ino;
      this.own, logged := own, {};
    }

    /** bzero. */
    method Bzero(b: nat)
      requires b < |disk|
      modifies this`disk, this`logged
      ensures disk == old(disk)[b := ZERO_BLOCK] && logged == old(logged) + {b}
    {
      disk := disk[b := ZERO_BLOCK];
      logged := logged + {b};
    }

    /** balloc's scan of the free map: the first free block, or the size. */
    method FirstFree() returns (b: nat)
      requires Sized(l, disk, ino)
      ensures b <= l.size && (forall c: nat | c < b :: Used(l, disk, c)) && (b < l.size ==> !Used(l, disk, b))
    {
      b := 0;
      while b < l.size
        invariant b % BPB == 0 && forall c: nat | c < b && c < l.size :: Used(l, disk, c)
      {
        var bi := FirstClear(disk[BitBlock(l, b)], if b + BPB <= l.size then BPB else l.size - b);
        RowScanned(l, disk, b, bi);
        if bi < BPB && b + bi < l.size {
          return b + bi;
        }
        b := b + BPB;
      }
      b := l.size;
    }

    /** balloc: the first free block, marked and zeroed; 0 if there is none. */
    method Balloc() returns (r: nat)
      requires Ready()
      modifies this`disk, this`logged
      ensures Ready()
      ensures r == 0 ==> disk == old(disk) && logged == old(logged) && Full()
      ensures r != 0 ==> r < l.size && !old(Used(l, disk, r)) && forall c: nat | c < r :: old(Used(l, disk, c))
      ensures r != 0 ==> disk == Taken(l, old(disk), r) && logged == old(logged) + {BitBlock(l, r), r}
    {
      r := FirstFree();
      if r == l.size { return 0; }
      var bits := disk[BitBlock(l, r)];
      disk := disk[BitBlock(l, r) := PutBlockBit(bits, r % BPB, true)];
      logged := logged + {BitBlock(l, r)};
      Bzero(r);
      assert disk == Taken(l, old(disk), r);
      TakenKeepsMeta(l, old(disk), |ino|, r);
    }

    /** bfree; its panic is excluded by the bit being set. */
    method Bfree(b: nat)
      requires Sized(l, disk, ino) && b < l.size && Used(l, disk, b)
      modifies this`disk, this`logged
      ensures disk == Mark(l, old(disk), b, false) && logged == old(logged) + {BitBlock(l, b)}
    {
      var bits := disk[BitBlock(l, b)];
      disk := disk[BitBlock(l, b) := PutBlockBit(bits, b % BPB, false)];
      logged := logged + {BitBlock(l, b)};
    }

    /** iupdate: the inode's copy on disk becomes the one in memory. */
    method Iupdate(i: nat)
      requires Sized(l, disk, ino) && i < |ino| && Storable(ino[i])
      modifies this`disk, this`logged
      ensures disk == Store(l, old(disk), i, ino[i]) && logged == old(logged) + {InodeBlock(l, i)}
    {
      disk := Store(l, disk, i, ino[i]);
      logged := logged + {InodeBlock(l, i)};
    }

    /** bmap for addrs[k]: allocates if it is empty. */
    method MapAddr(i: nat, k: nat) returns (addr: nat, ghost g: Growth)
      requires Ready() && i < |ino| && k <= NDIRECT
      modifies this`disk, this`ino, this`own, this`logged
      ensures Ready() && |ino| == |old(ino)| && Grew(l, old(Abs()), Abs(), i, g)
      ensures addr == 0 ==> Full()
      ensures addr == ino[i].addrs[k] && ino[i].addrs == old(ino[i].addrs)[k := addr]
      ensures old(ino[i].addrs[k]) != 0 || addr == 0 ==> Abs() == old(Abs()) && logged == old(logged)
      ensures old(ino[i].addrs[k]) == 0 && addr != 0 ==>
                addr < |disk| && logged == old(logged) + {BitBlock(l, addr), addr}
      ensures g == if old(ino[i].addrs[k]) != 0 || addr == 0 then Same else AddedAddr(Same, k, addr)
    {
      addr := ino[i].addrs[k];
      g := Same;
      if addr == 0 {
        addr := Balloc();
        if addr == 0 { return; }
        ino := SetAddr(ino, i, k, addr);
        own := own[addr := Place(i, k)];
        g := AddedAddr(Same, k, addr);
        assert Grew(l, old(Abs()), old(Abs()), i, Same);
      }
    }

    /** bmap for entry j of the indirect block: allocates if it is empty. */
    method MapEntry(i: nat, j: nat, ghost s: Fs, ghost g0: Growth) returns (addr: nat, ghost g: Growth)
      requires Ready() && i < |ino| && 0 != ino[i].addrs[NDIRECT] < |disk| && j < NINDIRECT && Grew(l, s, Abs(), i, g0)
      modifies this`disk, this`own, this`logged
      ensures Sized(l, disk, ino) && Grew(l, s, Abs(), i, g) && Slot(disk, ino[i].addrs, NDIRECT + 1 + j) == addr
      ensures addr == 0 ==> Full()
      ensures old(Slot(disk, ino[i].addrs, NDIRECT + 1 + j)) != 0 || addr == 0 ==>
                logged == old(logged) && Abs() == old(Abs())
      ensures old(Slot(disk, ino[i].addrs, NDIRECT + 1 + j)) == 0 && addr != 0 ==>
                logged == old(logged) + {BitBlock(l, addr), addr, ino[i].addrs[NDIRECT]}
      ensures g == if old(Slot(disk, ino[i].addrs, NDIRECT + 1 + j)) != 0 || addr == 0 then g0
                   else AddedEntry(g0, j, addr)
    {
      addr := Word(disk[ino[i].addrs[NDIRECT]], j);
      g := g0;
      assert addr == Slot(disk, ino[i].addrs, NDIRECT + 1 + j);
      if addr == 0 {
        addr, g := NewEntry(i, j, s, g0);
      }
    }

    /** bmap's allocation for an empty entry of the indirect block. */
    method NewEntry(i: nat, j: nat, ghost s: Fs, ghost g0: Growth) returns (addr: nat, ghost g: Growth)
      requires Ready() && i < |ino| && 0 != ino[i].addrs[NDIRECT] < |disk| && j < NINDIRECT && Grew(l, s, Abs(), i, g0)
      requires Slot(disk, ino[i].addrs, NDIRECT + 1 + j) == 0
      modifies this`disk, this`own, this`logged
      ensures Sized(l, disk, ino) && Grew(l, s, Abs(), i, g) && Slot(disk, ino[i].addrs, NDIRECT + 1 + j) == addr
      ensures addr == 0 ==> Full() && logged == old(logged) && Abs() == old(Abs())
      ensures addr != 0 ==> logged == old(logged) + {BitBlock(l, addr), addr, ino[i].addrs[NDIRECT]}
      ensures g == if addr == 0 then g0 else AddedEntry(g0, j, addr)
    {
      g := g0;
      addr := Balloc();
      if addr == 0 { return; }
      SetEntry(i, j, addr, s, old(Abs()), g0);
      g := AddedEntry(g0, j, addr);
    }

    /** The entry of a block just allocated: the state was a, to which the file had grown from s. */
    method SetEntry(i: nat, j: nat, addr: nat, ghost s: Fs, ghost a: Fs, ghost g0: Growth)
      requires Sized(l, disk, ino) && CanAddEntry(l, a, i, j, addr) && Grew(l, s, a, i, g0)
      requires disk == Taken(l, a.disk, addr) && ino == a.ino && own == a.own
      modifies this`disk, this`own, this`logged
      ensures Sized(l, disk, ino) && Grew(l, s, Abs(), i, AddedEntry(g0, j, addr))
      ensures Slot(disk, ino[i].addrs, NDIRECT + 1 + j) == addr && logged == old(logged) + {ino[i].addrs[NDIRECT]}
    {
      var x := ino[i].addrs[NDIRECT];
      disk := disk[x := SetWord(disk[x], j, addr)];
      logged := logged + {x};
      own := own[addr := Place(i, NDIRECT + 1 + j)];
      EntryGrew(l, s, a, Abs(), i, g0, j, addr);
    }

    /** bmap for entry j of the indirect block, which is added first if there is none. */
    method MapIndirect(i: nat, j: nat) returns (addr: nat, ghost g: Growth)
      requires Ready() && i < |ino| && ino[i].addrs[NDIRECT] < |disk| && j < NINDIRECT
      modifies this`disk, this`ino, this`own, this`logged
      ensures Sized(l, disk, ino) && |ino| == |old(ino)| && Grew(l, old(Abs()), Abs(), i, g)
      ensures addr == 0 ==> Full()
      ensures addr != 0 ==> Slot(disk, ino[i].addrs, NDIRECT + 1 + j) == addr
      ensures old(Slot(disk, ino[i].addrs, NDIRECT + 1 + j)) != 0 ==>
                addr != 0 && Abs() == old(Abs()) && logged == old(logged)
      ensures old(ino[i].addrs[NDIRECT]) != 0 ==> ino[i].addrs[NDIRECT] == old(ino[i].addrs[NDIRECT])
      ensures logged == old(logged) + GrowthLog(l, ino[i].addrs[NDIRECT], g)
      ensures g == BmapGrowth(old(Slot(disk, ino[i].addrs, NDIRECT + 1 + j)), old(ino[i].addrs[NDIRECT]),
                              ino[i].addrs[NDIRECT], j + NDIRECT, addr)
    {
      var x, g0 := MapAddr(i, NDIRECT);
      g := g0;
      if x == 0 { return 0, g; }
      ghost var mid, slot := logged, Slot(disk, ino[i].addrs, NDIRECT + 1 + j);
      if old(ino[i].addrs[NDIRECT]) == 0 { NewIndirect(l, old(disk), old(ino[i].addrs), j, x); }
      addr, g := MapEntry(i, j, old(Abs()), g);
      EntryLogged(l, old(logged), mid, logged, old(ino[i].addrs[NDIRECT]), x, slot, j + NDIRECT, addr, g0, g);
    }

    /** bmap: the address of the file's block bn, allocated if there was none; 0 if the disk is
        full.  GrewKeeps says what this leaves alone. */
    method Bmap(i: nat, bn: nat) returns (addr: nat, ghost g: Growth)
      requires Ready() && i < |ino| && ino[i].addrs[NDIRECT] < |disk| && bn < MAXFILE
      modifies this`disk, this`ino, this`own, this`logged
      ensures Sized(l, disk, ino) && |ino| == |old(ino)| && Grew(l, old(Abs()), Abs(), i, g)
      ensures addr == 0 ==> Full()
      ensures addr != 0 ==> Slot(disk, ino[i].addrs, DataSlot(bn)) == addr
      ensures old(Slot(disk, ino[i].addrs, DataSlot(bn))) != 0 ==>
                addr != 0 && Abs() == old(Abs()) && logged == old(logged)
      ensures old(ino[i].addrs[NDIRECT]) != 0 ==> ino[i].addrs[NDIRECT] == old(ino[i].addrs[NDIRECT])
      ensures logged == old(logged) + GrowthLog(l, ino[i].addrs[NDIRECT], g)
      ensures g == BmapGrowth(old(Slot(disk, ino[i].addrs, DataSlot(bn))), old(ino[i].addrs[NDIRECT]),
                              ino[i].addrs[NDIRECT], bn, addr)
    {
      if bn < NDIRECT {
        addr, g := MapAddr(i, bn);
        return;
      }
      addr, g := MapIndirect(i, bn - NDIRECT);
    }

    /** One round of readi's loop: m bytes at n, out of one block. */
    method ReadBlock(i: nat, n: nat, m: nat) returns (data: seq<Byte>)
      requires Good(l, Abs()) && i < |ino| && FileOk(disk, ino[i])
      requires 0 < m && n % BSIZE + m <= BSIZE && n + m <= ino[i].size
      modifies this`disk, this`ino, this`own, this`logged
      ensures Abs() == old(Abs()) && logged == old(logged) && data == Contents(disk, ino[i])[n..n + m]
    {
      ReadyAt(l, Abs(), i);
      ReadRound(l, Abs(), i, n, m);
      var addr, g := Bmap(i, n / BSIZE);
      data := disk[addr][n % BSIZE..n % BSIZE + m];
    }

    /** readi's loop: the bytes delivered, which are all n unless byte faultAt is among them. */
    method ReadBytes(i: nat, off: nat, n: nat, faultAt: nat) returns (data: seq<Byte>)
      requires Good(l, Abs()) && i < |ino| && FileOk(disk, ino[i]) && off + n <= ino[i].size
      modifies this`disk, this`ino, this`own, this`logged
      ensures Abs() == old(Abs()) && logged == old(logged)
      ensures data == Contents(disk, ino[i])[off..off + if faultAt < n then faultAt else n]
    {
      ghost var c := Contents(disk, ino[i]);
      data := [];
      var tot := 0;
      while tot < n
        invariant tot <= n && tot <= faultAt && Abs() == old(Abs()) && logged == old(logged)
        invariant data == c[off..off + tot]
      {
        var m := RoundSize(off, tot, n, off + tot);
        var more := ReadBlock(i, off + tot, m);
        var k := if faultAt < tot + m then faultAt - tot else m;
        Delivered(c, off, tot, m, k, more);
        data := data + more[..k];
        if k < m { return; }
        tot := tot + m;
      }
    }

    /** readi: the bytes from off on, at most n, up to the end of the file.  It allocates nothing.
        Byte faultAt is the first that cannot be delivered; with it among the bytes, the result is -1. */
    method Readi(i: nat, off: nat, n: nat, faultAt: nat) returns (r: int, data: seq<Byte>)
      requires Valid() && i < |ino| && IsWord(off) && IsWord(n)
      modifies this`disk, this`ino, this`own, this`logged
      ensures Abs() == old(Abs()) && logged == old(logged)
      ensures off > ino[i].size || !IsWord(off + n) ==> r == 0 && data == []
      ensures off <= ino[i].size && IsWord(off + n) ==>
                var all := Files(Abs())[i][off..if off + n <= ino[i].size then off + n else ino[i].size];
                if |all| <= faultAt then r == |all| && data == all else r == -1 && data == all[..faultAt]
    {
      if off > ino[i].size || (off + n) % 0x1_0000_0000 < off { return 0, []; }
      var n' := if off + n > ino[i].size then ino[i].size - off else n;
      data := ReadBytes(i, off, n', faultAt);
      r := if faultAt < n' then -1 else n';
    }

    /** A run of writei's loop for src at off of file i, from s0, has led here. */
    ghost predicate Writing(s0: Fs, i: nat, off: nat, src: seq<Byte>, h: Steps)
      reads this
    {
      && Wrote(l, s0, i, off, h) && Ran(l, s0, i, off, src, h)
      && h.now == Abs() && i < |ino| && |ino[i].addrs| == NDIRECT + 1
    }

    /** bmap in a round of writei's loop. */
    method MapBlock(i: nat, n: nat, ghost s0: Fs, ghost off: nat, ghost h: Steps) returns (addr: nat, ghost g: Growth)
      requires Wrote(l, s0, i, off, h) && h.now == Abs() && i < |ino| && |ino[i].addrs| == NDIRECT + 1 &&
               n < MAXFILE * BSIZE
      modifies this`disk, this`ino, this`own, this`logged
      ensures Wrote(l, s0, i, off, Looked(h, n, addr, g, Abs())) && Looks(l, h.now, i, n, addr, g, Abs())
      ensures addr < |disk| && (addr == 0 ==> NoSpace(l, Abs()))
      ensures logged == old(logged) + GrowthLog(l, Pointer(Abs(), i), g)
    {
      var bn := n / BSIZE;
      RoundReady(l, s0, i, off, h);
      addr, g := Bmap(i, bn);
      ghost var h' := Looked(h, n, addr, g, Abs());
      assert Wrote(l, s0, i, off, h');
      RoundFull(l, s0, i, off, h');
      RoundMapped(l, s0, i, off, h', bn);
    }

    /** The copy of a round of writei's loop, to the block bmap found. */
    method CopyRound(i: nat, off: nat, n: nat, tot: nat, m: nat, at: nat, src: seq<Byte>, ghost s0: Fs,
                     ghost mid: Steps)
      returns (ghost h': Steps)
      requires Writing(s0, i, off, src, mid) && tot < |src| && Data(mid) == src[..tot] && n == off + tot
      requires mid.Looked? && mid.n == n && mid.addr == at && 0 != at < |disk|
      requires off + |src| <= MAXFILE * BSIZE && m == RoundLen(off, tot, |src|) && 0 < m && n % BSIZE + m <= BSIZE &&
               tot + m <= |src|
      modifies this`disk, this`logged
      ensures Writing(s0, i, off, src, h') && Data(h') == src[..tot + m] && h'.Copied?
      ensures logged == old(logged) + {at} && LogOf(l, i, h') == LogOf(l, i, mid) + {at}
    {
      var chunk := src[tot..tot + m];
      disk := disk[at := Overwrite(disk[at], n % BSIZE, chunk)];
      logged := logged + {at};
      RoundCopied(l, s0, i, off, src, mid, tot, chunk, Abs());
      h' := Copied(mid, chunk, Abs());
    }

    /** The part of a round's copy before the byte that cannot be read, into a buffer that is then
        released without being logged. */
    method CopyPart(i: nat, off: nat, n: nat, tot: nat, at: nat, part: seq<Byte>, ghost src: seq<Byte>, ghost s0: Fs,
                    ghost mid: Steps)
      returns (ghost h2: Steps)
      requires tot <= |src| && Writing(s0, i, off, src, mid) && Data(mid) == src[..tot] && n == off + tot
      requires mid.Looked? && mid.n == n && mid.addr == at && 0 != at < |disk|
      requires n % BSIZE + |part| <= BSIZE && n + |part| <= MAXFILE * BSIZE
      modifies this`disk
      ensures Wrote(l, s0, i, off, h2) && h2.now == Abs() && Data(h2) == src[..tot] + part
    {
      h2 := mid;
      if part != [] {
        disk := disk[at := Overwrite(disk[at], n % BSIZE, part)];
        h2 := Copied(mid, part, Abs());
        CanCopy(l, mid.before.now, i, n, at, mid.g, mid.now, part, Abs());
        StepCopied(l, s0, i, off, mid, n, part, Abs());
      }
    }

    /** One round of writei's loop: the next m bytes of src go into the file at n = off + tot, unless the
        disk is full or byte faultAt is one of them.  h' is the run so far, and h2 leads to the blocks as
        they are, which differ after a fault. */
    method WriteBlock(i: nat, off: nat, n: nat, tot: nat, m: nat, src: seq<Byte>, faultAt: nat, ghost s0: Fs,
                      ghost h: Steps, ghost base: set<nat>)
      returns (end: RoundEnd, ghost h': Steps, ghost h2: Steps)
      requires tot < |src| && Writing(s0, i, off, src, h) && !h.Looked? && Data(h) == src[..tot] && tot <= faultAt
      requires logged == base + LogOf(l, i, h)
      requires off + |src| <= MAXFILE * BSIZE && n == off + tot && m == RoundLen(off, tot, |src|)
      requires 0 < m && n % BSIZE + m <= BSIZE && tot + m <= |src|
      modifies this`disk, this`ino, this`own, this`logged
      ensures Wrote(l, s0, i, off, h') && Ran(l, s0, i, off, src, h') && logged == base + LogOf(l, i, h')
      ensures Data(h') == if end.RoundOver? then src[..tot + m] else src[..tot]
      ensures !end.CopyFault? ==> Writing(s0, i, off, src, h') && h2 == h'
      ensures end.RoundOver? ==> h'.Copied? && tot + m <= faultAt
      ensures end.DiskFull? ==> Finished(h', src) && NoSpace(l, Abs())
      ensures end.CopyFault? ==> faultAt < tot + m && Wrote(l, s0, i, off, h2) && h2.now == Abs()
      ensures end.CopyFault? ==> Data(h2) == src[..tot] + src[tot..faultAt]
    {
      var at, mid := LookUp(i, off, n, tot, src, s0, h, base);
      h', h2 := mid, mid;
      if at == 0 { return DiskFull, h', h2; }
      if faultAt < tot + m {
        h2 := CopyPart(i, off, n, tot, at, src[tot..faultAt], src, s0, mid);
        return CopyFault, h', h2;
      }
      h' := CopyRound(i, off, n, tot, m, at, src, s0, mid);
      return RoundOver, h', h';
    }

    /** The bmap of a round, as a step of writei's loop. */
    method LookUp(i: nat, off: nat, n: nat, tot: nat, src: seq<Byte>, ghost s0: Fs, ghost h: Steps,
                  ghost base: set<nat>)
      returns (at: nat, ghost mid: Steps)
      requires tot < |src| && Writing(s0, i, off, src, h) && !h.Looked? && Data(h) == src[..tot]
      requires logged == base + LogOf(l, i, h) && off + |src| <= MAXFILE * BSIZE && n == off + tot
      modifies this`disk, this`ino, this`own, this`logged
      ensures Writing(s0, i, off, src, mid) && Data(mid) == src[..tot] && logged == base + LogOf(l, i, mid)
      ensures mid.Looked? && mid.n == n && mid.addr == at < |disk| && (at == 0 ==> NoSpace(l, Abs()))
    {
      ghost var g;
      at, g := MapBlock(i, n, s0, off, h);
      mid := Looked(h, n, at, g, Abs());
      StepLooked(l, s0, i, off, src, h, mid, tot);
    }

    /** writei's loop: how many bytes were written before the disk was full or byte faultAt could not be
        read; then those from tot to faultAt are in the block as well. */
    method WriteBytes(i: nat, off: nat, src: seq<Byte>, faultAt: nat)
      returns (tot: nat, fault: bool, ghost h: Steps, ghost h2: Steps)
      requires Good(l, Abs()) && i < |ino| && FileOk(disk, ino[i]) && off <= ino[i].size &&
               off + |src| <= MAXFILE * BSIZE
      modifies this`disk, this`ino, this`own, this`logged
      ensures tot <= |src| && tot <= faultAt && Wrote(l, old(Abs()), i, off, h) && Ran(l, old(Abs()), i, off, src, h)
      ensures Data(h) == src[..tot] && logged == old(logged) + LogOf(l, i, h)
      ensures Wrote(l, old(Abs()), i, off, h2) && h2.now == Abs()
      ensures fault ==> FaultIn(off, tot, |src|, faultAt) && faultAt <= |src|
      ensures fault ==> Data(h2) == src[..tot] + src[tot..faultAt]
      ensures !fault ==> Finished(h, src) && h2 == h && (tot < |src| ==> NoSpace(l, Abs()))
    {
      ghost var s0, base := Abs(), logged;
      tot, fault := 0, false;
      h := Begun(s0);
      h2 := h;
      RunBegun(l, s0, i, off, src, h);
      while tot < |src|
        invariant tot <= |src| && tot <= faultAt && Writing(s0, i, off, src, h) && !h.Looked? && Data(h) == src[..tot]
        invariant logged == base + LogOf(l, i, h) && h2 == h
      {
        var n := off + tot;
        var m := RoundSize(off, tot, |src|, n);
        var end, h', h2' := WriteBlock(i, off, n, tot, m, src, faultAt, s0, h, base);
        h, h2 := h', h2';
        if !end.RoundOver? {
          fault := end.CopyFault?;
          return;
        }
        tot := tot + m;
      }
    }

    /** writei's last part, where the write has come to `end`: the size is raised to that if it is
        less, and the inode stored. */
    method WriteClose(i: nat, end: nat, ghost s0: Fs, ghost off: nat, ghost h2: Steps, ghost data: seq<Byte>,
                      ghost extra: seq<Byte>)
      requires Whole(l, s0) && i < |s0.ino| && Wrote(l, s0, i, off, h2) && h2.now == Abs()
      requires Data(h2) == data + extra && end == off + |data|
      modifies this`disk, this`ino, this`logged
      ensures Valid() && own == old(own) && logged == old(logged) + {InodeBlock(l, i)}
      ensures Smeared(Files(s0), Files(Abs()), i, off, data, extra)
    {
      RoundReady(l, s0, i, off, h2);
      var size := if end > ino[i].size then end else ino[i].size;
      WroteStorable(l, s0, i, off, h2, end, size);
      ino := ino[i := ino[i].(size := size)];
      Iupdate(i);
      WroteWhole(l, s0, i, off, h2, data, extra, size, Abs());
    }

    /** writei past its checks: the bytes written, by a run of its loop that logs exactly LogOf, and
        then the inode's block; after a fault the block it fell in has been changed further, by extra. */
    method WriteWithin(i: nat, off: nat, src: seq<Byte>, faultAt: nat)
      returns (r: nat, ghost h: Steps, ghost extra: seq<Byte>)
      requires Valid() && i < |ino| && off <= ino[i].size && off + |src| <= MAXFILE * BSIZE
      modifies this`disk, this`ino, this`own, this`logged
      ensures Valid() && r <= |src| && r <= faultAt && CutShort(off, r, src, faultAt, extra)
      ensures r < |src| ==> NoSpace(l, Abs()) || FaultIn(off, r, |src|, faultAt)
      ensures Smeared(old(Files(Abs())), Files(Abs()), i, off, src[..r], extra)
      ensures Wrote(l, old(Abs()), i, off, h) && Ran(l, old(Abs()), i, off, src, h) && Data(h) == src[..r]
      ensures logged == old(logged) + LogOf(l, i, h) + {InodeBlock(l, i)}
    {
      ghost var s0 := Abs();
      var tot, fault, h1, h2 := WriteBytes(i, off, src, faultAt);
      h := h1;
      extra := if fault then src[tot..faultAt] else [];
      WriteClose(i, off + tot, s0, off, h2, src[..tot], extra);
      r := tot;
    }

    /** writei: -1 and nothing done if the range is not acceptable; else the bytes written, which are
        all of them unless the disk is full or byte faultAt of src cannot be read.  What was copied of
        the round in which that happens, extra, shows as far as the file reaches. */
    method Writei(i: nat, off: nat, src: seq<Byte>, faultAt: nat) returns (r: int, ghost extra: seq<Byte>)
      requires Valid() && i < |ino| && IsWord(off) && IsWord(|src|)
      modifies this`disk, this`ino, this`own, this`logged
      ensures Valid()
      ensures Refused(old(ino[i].size), off, |src|) ==> r == -1 && Abs() == old(Abs()) && logged == old(logged)
      ensures !Refused(old(ino[i].size), off, |src|) ==>
                && 0 <= r <= |src| && r <= faultAt && CutShort(off, r, src, faultAt, extra)
                && (r < |src| ==> NoSpace(l, Abs()) || FaultIn(off, r, |src|, faultAt))
                && Smeared(old(Files(Abs())), Files(Abs()), i, off, src[..r], extra)
      ensures |logged - old(logged)| <= Cost(l, off, |src|)
    {
      extra := [];
      if off > ino[i].size || (off + |src|) % 0x1_0000_0000 < off { return -1, []; }
      if off + |src| > MAXFILE * BSIZE { return -1, []; }
      ghost var h;
      r, h, extra := WriteWithin(i, off, src, faultAt);
      ghost var log := LogOf(l, i, h) + {InodeBlock(l, i)};
      RunCost(l, old(Abs()), i, off, src, h, log);
      PartSize(logged - old(logged), log);
    }

    /** itrunc's loop over the direct blocks. */
    method FreeDirect(i: nat)
      requires Good(l, Abs()) && i < |ino|
      modifies this`disk, this`ino, this`own, this`logged
      ensures Shrunk(l, old(Abs()), Abs(), i) && ino[i].addrs[NDIRECT] == old(ino[i].addrs[NDIRECT])
      ensures forall k | 0 <= k < NDIRECT :: ino[i].addrs[k] == 0
      ensures Freed(l, old(disk), old(ino[i].addrs), 0, NDIRECT, old(logged), disk, logged)
    {
      ghost var s0, a0, log0 := Abs(), ino[i].addrs, logged;
      var k := 0;
      while k < NDIRECT
        invariant k <= NDIRECT && Shrunk(l, s0, Abs(), i)
        invariant forall k' | k <= k' <= NDIRECT :: ino[i].addrs[k'] == a0[k']
        invariant forall k' | 0 <= k' < k :: ino[i].addrs[k'] == 0
        invariant Freed(l, s0.disk, a0, 0, k, log0, disk, logged)
      {
        ghost var b, d, log := ino[i].addrs[k], disk, logged;
        FreeAddr(i, k, s0);
        FreedMore(l, s0.disk, a0, 0, k, log0, d, log, b, disk, logged);
        k := k + 1;
      }
    }

    method FreeAddr(i: nat, k: nat, ghost s0: Fs)
      requires Shrunk(l, s0, Abs(), i) && i < |ino| && k < NDIRECT
      modifies this`disk, this`ino, this`own, this`logged
      ensures Shrunk(l, s0, Abs(), i) && i < |ino| && ino[i].addrs == old(ino[i].addrs)[k := 0]
      ensures logged == old(logged) + GivenBack(l, old(ino[i].addrs[k]))
      ensures Covered(old(disk), disk, GivenBack(l, old(ino[i].addrs[k])))
    {
      ghost var s := Abs();
      var b := ino[i].addrs[k];
      if b != 0 {
        FreeAddrStep(l, s, i, k);
        Bfree(b);
        ino := SetAddr(ino, i, k, 0);
        own := own - {b};
        ShrunkTrans(l, s0, s, Abs(), i);
      }
    }

    method FreeEntry(i: nat, j: nat, b: nat)
      requires Inv(l, disk, ino, own) && i < |ino| && j < NINDIRECT && Marked(l, disk, own.Keys - Entries(own, i, j))
      requires b == Slot(disk, ino[i].addrs, NDIRECT + 1 + j)
      modifies this`disk, this`logged
      ensures Inv(l, disk, ino, own) && Marked(l, disk, own.Keys - Entries(own, i, j + 1))
      ensures forall c: nat | c < l.bmapstart || l.datastart <= c < l.size :: disk[c] == old(disk[c])
      ensures logged == old(logged) + GivenBack(l, b) && Covered(old(disk), disk, GivenBack(l, b))
    {
      FreeEntryStep(l, disk, ino, own, i, j);
      if b != 0 {
        Bfree(b);
      }
    }

    /** itrunc's loop over the entries of the indirect block. */
    method FreeEntries(i: nat)
      requires Good(l, Abs()) && i < |ino| && ino[i].addrs[NDIRECT] != 0
      modifies this`disk, this`logged
      ensures Inv(l, disk, ino, own) && Marked(l, disk, own.Keys - Entries(own, i, NINDIRECT))
      ensures forall b: nat | b < l.bmapstart || l.datastart <= b < l.size :: disk[b] == old(disk[b])
      ensures Freed(l, old(disk), ino[i].addrs, NDIRECT + 1, NSLOTS, old(logged), disk, logged)
    {
      SlotInRange(l, disk, ino, own, i, NDIRECT);
      ghost var d0, log0 := disk, logged;
      var a := disk[ino[i].addrs[NDIRECT]];
      var j := 0;
      while j < NINDIRECT
        invariant j <= NINDIRECT && Inv(l, disk, ino, own) && Marked(l, disk, own.Keys - Entries(own, i, j))
        invariant forall b: nat | b < l.bmapstart || l.datastart <= b < l.size :: disk[b] == old(disk[b])
        invariant Freed(l, d0, ino[i].addrs, NDIRECT + 1, NDIRECT + 1 + j, log0, disk, logged)
      {
        ghost var d, log := disk, logged;
        FreeEntry(i, j, Word(a, j));
        FreedMore(l, d0, ino[i].addrs, NDIRECT + 1, NDIRECT + 1 + j, log0, d, log, Word(a, j), disk, logged);
        j := j + 1;
      }
    }

    /** itrunc's part about the indirect block. */
    method FreeIndirect(i: nat)
      requires Good(l, Abs()) && i < |ino|
      modifies this`disk, this`ino, this`own, this`logged
      ensures Shrunk(l, old(Abs()), Abs(), i) && i < |ino| && ino[i].addrs == old(ino[i].addrs)[NDIRECT := 0]
      ensures Freed(l, old(disk), old(ino[i].addrs), NDIRECT, NSLOTS, old(logged), disk, logged)
    {
      var x := ino[i].addrs[NDIRECT];
      ghost var s, log := Abs(), logged;
      if x != 0 {
        FreeEntries(i);
        FreeIndirectStep(l, disk, ino, own, i);
        ghost var d1, log1 := disk, logged;
        Bfree(x);
        ino := SetAddr(ino, i, NDIRECT, 0);
        own := own - Indirect(own, i);
        FreeIndirectFrame(l, s, Abs(), i);
        IndirectFreed(l, s, i, x, log, d1, log1, disk, logged);
      } else {
        NoIndirect(l, disk, ino[i].addrs, NSLOTS);
      }
    }

    /** itrunc: the file is empty and owns nothing; its blocks, and no others, are free again.  Just their
        bitmap blocks and the inode's are logged, and nothing else is changed. */
    method Itrunc(i: nat)
      requires Valid() && i < |ino|
      modifies this`disk, this`ino, this`own, this`logged
      ensures Valid() && Files(Abs()) == old(Files(Abs()))[i := []]
      ensures forall b :: b in own <==> b in old(own) && old(own)[b].i != i
      ensures logged == old(logged) + BitsOf(l, BlocksOf(old(own), i)) + {InodeBlock(l, i)}
      ensures Covered(old(disk), disk, logged)
    {
      ghost var s0, log0 := Abs(), logged;
      FreeDirect(i);
      ghost var s1, log1 := Abs(), logged;
      FreeIndirect(i);
      ghost var s, log := Abs(), logged;
      ShrunkTrans(l, s0, s1, s, i);
      CloseStorable(l, s, i, 0);
      ino := ino[i := ino[i].(size := 0)];
      Iupdate(i);
      TruncWhole(l, s0, s, Abs(), i);
      NothingOwned(l, s, i);
      AllFreed(l, s0, s1, i, log0, log1, s.disk, log, disk, logged);
    }

    /** One of filewrite's operations: a chunk at off, where the data before it has been written
        from `start` on into files that then held f0. */
    method WriteChunk(i: nat, off: nat, chunk: seq<Byte>, faultAt: nat, ghost f0: seq<seq<Byte>>, ghost start: nat,
                      ghost data: seq<Byte>)
      returns (r: int, ghost extra: seq<Byte>)
      requires Valid() && i < |ino| && IsWord(off) && 0 < |chunk| <= CHUNK
      requires Progress(f0, Files(Abs()), i, start, data) && off == start + |data|
      modifies this`disk, this`ino, this`own, this`logged
      ensures Valid() && r <= |chunk| && r <= faultAt
      ensures Smeared(f0, Files(Abs()), i, start, data + Done(chunk, r), extra)
      ensures extra == [] || (0 <= r && CutShort(off, r, chunk, faultAt, extra))
      ensures |logged| <= MAXOPBLOCKS && (l.size < BPB ==> |logged| <= MAXOPBLOCKS - 3)
      ensures r > 0 ==> IsWord(off + r)
      ensures r < |chunk| ==>
                || NoSpace(l, Abs()) || Refused(old(ino[i].size), off, |chunk|)
                || (0 <= r && FaultIn(off, r, |chunk|, faultAt))
    {
      ghost var f := Files(Abs());
      logged := {};
      r, extra := Writei(i, off, chunk, faultAt);
      if r < 0 { extra := []; }
      ChunkFits(l, off, |chunk|);
      assert logged - {} == logged;
      WriteiProgress(f0, f, Files(Abs()), i, start, data, chunk, r, extra);
    }

    /** The next of filewrite's operations, after k bytes of src: n1 bytes more. */
    method WriteNext(i: nat, off: nat, k: nat, n1: nat, src: seq<Byte>, faultAt: nat, ghost f0: seq<seq<Byte>>)
      returns (r: int, ghost extra: seq<Byte>)
      requires Valid() && i < |ino| && IsWord(off + k) && 0 < n1 <= CHUNK && k + n1 <= |src| && k <= faultAt
      requires Progress(f0, Files(Abs()), i, off, src[..k])
      modifies this`disk, this`ino, this`own, this`logged
      ensures Valid() && r <= n1 && |logged| <= MAXOPBLOCKS && (l.size < BPB ==> |logged| <= MAXOPBLOCKS - 3)
      ensures r == n1 ==> k + n1 <= faultAt && IsWord(off + k + n1) && Progress(f0, Files(Abs()), i, off, src[..k + n1])
      ensures r < n1 ==> Smeared(f0, Files(Abs()), i, off, src[..if r > 0 then k + r else k], extra)
      ensures r < n1 ==> extra == [] || (0 <= r && k + r <= faultAt < |src| && extra == src[k + r..faultAt])
      ensures r < n1 ==> NoSpace(l, Abs()) || Refused(old(ino[i].size), off + k, n1) || faultAt < |src|
    {
      r, extra := WriteChunk(i, off + k, src[k..k + n1], faultAt - k, f0, off, src[..k]);
      PrefixPart(src, k, n1, r);
      if r == n1 {
        NotSmeared(f0, Files(Abs()), i, off, src[..k + n1]);
      } else if 0 <= r {
        CutPart(src, off + k, k, n1, r, faultAt, extra);
        FaultWithin(off + k, r, n1, faultAt - k);
      }
    }

    /** filewrite on an inode, from file offset off: one operation per chunk.  Returns n if every
        byte was written and -1 otherwise, the new file offset, and the most blocks any one of
        its operations logged.  Byte faultAt of src is the first that cannot be read. */
    method Filewrite(i: nat, off: nat, n: int, src: seq<Byte>, faultAt: nat)
      returns (ret: int, off': nat, ghost extra: seq<Byte>, ghost peak: nat)
      requires Valid() && i < |ino| && IsWord(off) && n < 0x8000_0000 && |src| == if n < 0 then 0 else n
      modifies this`disk, this`ino, this`own, this`logged
      ensures Valid() && off <= off' <= off + |src| && ret == if off' == off + n then n else -1
      ensures Smeared(old(Files(Abs())), Files(Abs()), i, off, src[..off' - off], extra)
      ensures extra == [] || (off' - off <= faultAt < |src| && extra == src[off' - off..faultAt])
      ensures 0 <= n != ret ==> NoSpace(l, Abs()) || Refused(|old(Files(Abs()))[i]|, off, n) || faultAt < n
      ensures peak <= MAXOPBLOCKS && (l.size < BPB ==> peak <= MAXOPBLOCKS - 3)
    {
      ghost var f0 := Files(Abs());
      off', extra, peak := off, [], 0;
      var k := 0;
      ProgressStart(f0, i, off);
      while k < n
        invariant Valid() && k <= |src| && k <= faultAt && off' == off + k && IsWord(off') && extra == []
        invariant Progress(f0, Files(Abs()), i, off, src[..k])
        invariant peak <= MAXOPBLOCKS && (l.size < BPB ==> peak <= MAXOPBLOCKS - 3)
      {
        var n1 := if n - k > CHUNK then CHUNK else n - k;
        var r, cut := WriteNext(i, off, k, n1, src, faultAt, f0);
        peak := Max(peak, |logged|);
        if r != n1 {
          if r > 0 { off' := off' + r; }
          extra := cut;
          return -1, off', extra, peak;
        }
        off' := off' + r;
        k := k + r;
      }
      NotSmeared(f0, Files(Abs()), i, off, src[..k]);
      ret := if k == n then n else -1;
    }
  }
}
