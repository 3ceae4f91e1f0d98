/** Writing bytes into a file, one block at a time, and putting the inode back on disk
    (kernel/fs.c). */
module FileContents {
  import opened Common
  import opened BlockFormat
  import opened FileLayer

  /** s with data put at off, over the end if need be. */
  ghost function Splice(s: seq<Byte>, off: nat, data: seq<Byte>): seq<Byte>
    requires off <= |s|
  {
    s[..off] + data + (if off + |data| <= |s| then s[off + |data|..] else [])
  }

  /** c with its bytes from `at` on overwritten by extra, as far as it reaches. */
  ghost function Smear(c: seq<Byte>, at: nat, extra: seq<Byte>): seq<Byte>
    requires at <= |c|
  {
    Splice(c, at, extra)[..|c|]
  }

  lemma SmearNothing(c: seq<Byte>, at: nat)
    requires at <= |c|
    ensures Smear(c, at, []) == c
  {
  }

  ghost function Max(a: nat, b: nat): nat { if a < b then b else a }

  /** The bytes of a block are consecutive bytes of its file. */
  lemma BlockSlice(disk: Disk, a: seq<nat>, off: nat, t: nat)
    requires |a| == NDIRECT + 1 && off % BSIZE + t < BSIZE && off + t < MAXFILE * BSIZE
    requires Slot(disk, a, DataSlot(off / BSIZE)) < |disk|
    ensures (off + t) / BSIZE == off / BSIZE && (off + t) % BSIZE == off % BSIZE + t
    ensures ByteAt(disk, a, off + t) == disk[Slot(disk, a, DataSlot(off / BSIZE))][off % BSIZE + t]
  {
  }

  /** The bytes of a file of size n0 (d0, a0) with data written at off are those of (d, a). */
  ghost predicate Spliced(d0: Disk, a0: seq<nat>, n0: nat, d: Disk, a: seq<nat>, off: nat, data: seq<Byte>)
    requires |a0| == NDIRECT + 1 == |a|
  {
    && off <= n0 && off + |data| <= MAXFILE * BSIZE && Mapped(d, a, Max(n0, off + |data|))
    && forall o: nat | o < Max(n0, off + |data|) ::
         ByteAt(d, a, o) == if off <= o < off + |data| then data[o - off] else ByteAt(d0, a0, o)
  }

  /** data has been written at off of file i, whose size has not been raised yet. */
  ghost predicate Written(l: Layout, s0: Fs, s: Fs, i: nat, off: nat, data: seq<Byte>) {
    && OnlyFile(l, s0.disk, s.disk, s0.ino, s.ino, s0.own, s.own, i)
    && |s0.ino[i].addrs| == NDIRECT + 1 == |s.ino[i].addrs|
    && Spliced(s0.disk, s0.ino[i].addrs, s0.ino[i].size, s.disk, s.ino[i].addrs, off, data)
  }

  /** A chunk that fits the block it goes to, which is there. */
  ghost predicate CanPut(s: Fs, i: nat, n: nat, chunk: seq<Byte>) {
    && i < |s.ino| && |s.ino[i].addrs| == NDIRECT + 1 && n % BSIZE + |chunk| <= BSIZE && |chunk| > 0
    && n + |chunk| <= MAXFILE * BSIZE && 0 != Slot(s.disk, s.ino[i].addrs, DataSlot(n / BSIZE)) < |s.disk|
  }

  /** Block n/BSIZE of a file, overwritten from n on. */
  ghost function Put(s: Fs, i: nat, n: nat, chunk: seq<Byte>): Fs
    requires CanPut(s, i, n, chunk)
  {
    var x := Slot(s.disk, s.ino[i].addrs, DataSlot(n / BSIZE));
    s.(disk := s.disk[x := Overwrite(s.disk[x], n % BSIZE, chunk)])
  }

  lemma PutGood(l: Layout, s: Fs, i: nat, n: nat, chunk: seq<Byte>)
    requires Good(l, s) && CanPut(s, i, n, chunk)
    ensures Good(l, Put(s, i, n, chunk))
    ensures OnlyFile(l, s.disk, Put(s, i, n, chunk).disk, s.ino, s.ino, s.own, s.own, i)
  {
    WriteBytes(l, s.disk, s.ino, s.own, i, n / BSIZE, n % BSIZE, chunk);
    MarkedFrame(l, s.disk, Put(s, i, n, chunk).disk, |s.ino|, s.own.Keys);
  }

  /** The bytes after Put, by offset. */
  lemma PutBytes(l: Layout, s: Fs, i: nat, n: nat, chunk: seq<Byte>, o: nat)
    requires Inv(l, s.disk, s.ino, s.own) && CanPut(s, i, n, chunk)
    requires o < MAXFILE * BSIZE && Slot(s.disk, s.ino[i].addrs, DataSlot(o / BSIZE)) != 0
    ensures Slot(Put(s, i, n, chunk).disk, s.ino[i].addrs, DataSlot(o / BSIZE)) != 0
    ensures ByteAt(Put(s, i, n, chunk).disk, s.ino[i].addrs, o)
         == if n <= o < n + |chunk| then chunk[o - n] else ByteAt(s.disk, s.ino[i].addrs, o)
  {
    WriteBytes(l, s.disk, s.ino, s.own, i, n / BSIZE, n % BSIZE, chunk);
  }

  /** The copy of one round of writei's loop. */
  lemma PutWritten(l: Layout, s0: Fs, s1: Fs, s2: Fs, i: nat, off: nat, data: seq<Byte>, n: nat, chunk: seq<Byte>)
    requires Written(l, s0, s1, i, off, data) && Good(l, s1) && n == off + |data|
    requires CanPut(s1, i, n, chunk) && s2 == Put(s1, i, n, chunk)
    ensures Good(l, s2) && i < |s2.ino| && Written(l, s0, s2, i, off, data + chunk)
  {
    PutGood(l, s1, i, n, chunk);
    OnlyFileTrans(l, s0.disk, s1.disk, s2.disk, s0.ino, s1.ino, s2.ino, s0.own, s1.own, s2.own, i);
    SplicedMore(l, s0.disk, s0.ino[i].addrs, s0.ino[i].size, s1, i, off, data, n, chunk);
  }

  lemma SplicedMore(l: Layout, d0: Disk, a0: seq<nat>, n0: nat, s1: Fs, i: nat, off: nat, data: seq<Byte>, n: nat,
                    chunk: seq<Byte>)
    requires Inv(l, s1.disk, s1.ino, s1.own) && |a0| == NDIRECT + 1 && n == off + |data| && CanPut(s1, i, n, chunk)
    requires Spliced(d0, a0, n0, s1.disk, s1.ino[i].addrs, off, data)
    ensures Spliced(d0, a0, n0, Put(s1, i, n, chunk).disk, s1.ino[i].addrs, off, data + chunk)
  {
    var d2 := Put(s1, i, n, chunk).disk;
    forall o: nat | o < Max(n0, n + |chunk|)
      ensures Slot(d2, s1.ino[i].addrs, DataSlot(o / BSIZE)) != 0
      ensures ByteAt(d2, s1.ino[i].addrs, o) == if off <= o < n + |chunk| then (data + chunk)[o - off]
              else ByteAt(d0, a0, o)
    {
      if o >= Max(n0, n) { BlockSlice(s1.disk, s1.ino[i].addrs, n, o - n); }
      PutBytes(l, s1, i, n, chunk, o);
    }
  }

  // ---------------------------------------------------------------------------------------
  // The end of an operation: the size is set and iupdate puts the inode on disk.

  ghost function Closed(l: Layout, s: Fs, i: nat, size: nat): Fs
    requires i < |s.ino| && InodeBlock(l, i) < |s.disk| && Storable(s.ino[i].(size := size))
  {
    Fs(Store(l, s.disk, i, s.ino[i].(size := size)), s.ino[i := s.ino[i].(size := size)], s.own)
  }

  lemma InodeBlockInRange(l: Layout, ninodes: nat, i: nat)
    requires LayoutOk(l, ninodes) && i < ninodes
    ensures l.inodestart <= InodeBlock(l, i) < l.bmapstart < l.datastart <= l.size
  {
  }

  lemma CloseStorable(l: Layout, s: Fs, i: nat, size: nat)
    requires Good(l, s) && i < |s.ino| && size <= MAXFILE * BSIZE
    ensures InodeBlock(l, i) < |s.disk| && Storable(s.ino[i].(size := size))
  {
    InodeBlockInRange(l, |s.ino|, i);
    SizeKeeps(l, s.disk, s.ino, s.own, i, size);
    AddressesStorable(l, s.disk, s.ino[i := s.ino[i].(size := size)], s.own, i);
  }

  lemma CloseGood(l: Layout, s: Fs, s': Fs, i: nat, size: nat)
    requires Good(l, s) && i < |s.ino| && InodeBlock(l, i) < |s.disk| && Storable(s.ino[i].(size := size))
    requires s' == Closed(l, s, i, size)
    ensures Good(l, s')
  {
    InodeBlockInRange(l, |s.ino|, i);
    SizeKeeps(l, s.disk, s.ino, s.own, i, size);
    MarkedFrame(l, s.disk, s'.disk, |s.ino|, s.own.Keys);
    UnownedWrite(l, s.disk, s'.disk, s'.ino, s.own);
  }

  /** The inode on disk is the new one, and every other one is as it was. */
  lemma CloseSynced(l: Layout, s: Fs, s': Fs, i: nat, size: nat, j: nat)
    requires Sized(l, s.disk, s.ino) && i < |s.ino| && InodeBlock(l, i) < |s.disk| && Storable(s.ino[i].(size := size))
    requires s' == Closed(l, s, i, size) && j < |s.ino| && (j != i ==> Synced(l, s.disk, s.ino, j))
    ensures Sized(l, s'.disk, s'.ino) && Synced(l, s'.disk, s'.ino, j)
  {
    InodeBlockInRange(l, |s.ino|, i);
    InodeBlockInRange(l, |s.ino|, j);
    LoadAfterStore(l, s.disk, i, s.ino[i].(size := size), j);
  }

  /** Setting the size and storing the inode moves no byte of any file. */
  lemma CloseBytes(l: Layout, s: Fs, s': Fs, i: nat, size: nat, j: nat)
    requires Good(l, s) && i < |s.ino| && InodeBlock(l, i) < |s.disk| && Storable(s.ino[i].(size := size))
    requires s' == Closed(l, s, i, size) && j < |s.ino|
    ensures |s'.ino[j].addrs| == NDIRECT + 1 == |s.ino[j].addrs| &&
            BytesKept(s.disk, s.ino[j].addrs, s'.disk, s'.ino[j].addrs)
  {
    InodeBlockInRange(l, |s.ino|, i);
    assert s'.ino[j].addrs == s.ino[j].addrs;
    UnownedWrite(l, s.disk, s'.disk, s.ino, s.own);
    FillKeepsBytes(l, s.disk, s'.disk, s.ino, s.own, j, s.ino[j].addrs);
  }

  /** Written bytes, read off as contents; the last of them, extra, do not count for the size. */
  lemma SmearedContents(d0: Disk, n0: Inode, d: Disk, n: Inode, off: nat, data: seq<Byte>, extra: seq<Byte>)
    requires FileOk(d0, n0) && |n.addrs| == NDIRECT + 1
    requires Spliced(d0, n0.addrs, n0.size, d, n.addrs, off, data + extra) && n.size == Max(n0.size, off + |data|)
    ensures FileOk(d, n)
    ensures Contents(d, n) == Smear(Splice(Contents(d0, n0), off, data), off + |data|, extra)
  {
    var got, c := Contents(d, n), Splice(Contents(d0, n0), off, data);
    var want := Smear(c, off + |data|, extra);
    assert |got| == n.size == |c| == |want|;
    forall o: nat | o < n.size ensures got[o] == want[o] {
      assert want[o] == if off + |data| <= o < off + |data| + |extra| then extra[o - off - |data|] else c[o];
    }
  }

  lemma KeptContents(d: Disk, n: Inode, d': Disk)
    requires FileOk(d, n) && BytesKept(d, n.addrs, d', n.addrs)
    ensures FileOk(d', n) && Contents(d', n) == Contents(d, n)
  {
  }

  /** What a whole write leaves of the file itself. */
  lemma WriteResult(l: Layout, s0: Fs, s: Fs, s': Fs, i: nat, off: nat, data: seq<Byte>, extra: seq<Byte>, size: nat)
    requires Good(l, s) && Written(l, s0, s, i, off, data + extra) && i < |s.ino| && FileOk(s0.disk, s0.ino[i])
    requires size == Max(s0.ino[i].size, off + |data|)
    requires InodeBlock(l, i) < |s.disk| && Storable(s.ino[i].(size := size)) && s' == Closed(l, s, i, size)
    ensures off <= s0.ino[i].size && FileOk(s'.disk, s'.ino[i])
    ensures Contents(s'.disk, s'.ino[i])
         == Smear(Splice(Contents(s0.disk, s0.ino[i]), off, data), off + |data|, extra)
  {
    SmearedContents(s0.disk, s0.ino[i], s.disk, s'.ino[i], off, data, extra);
    CloseBytes(l, s, s', i, size, i);
    KeptContents(s.disk, s'.ino[i], s'.disk);
  }

  /** What it leaves of any other file. */
  lemma WriteOthers(l: Layout, s0: Fs, s: Fs, s': Fs, i: nat, size: nat, j: nat)
    requires Good(l, s0) && Good(l, s) && OnlyFile(l, s0.disk, s.disk, s0.ino, s.ino, s0.own, s.own, i)
    requires InodeBlock(l, i) < |s.disk| && Storable(s.ino[i].(size := size)) && s' == Closed(l, s, i, size)
    requires j < |s0.ino| && j != i && FileOk(s0.disk, s0.ino[j])
    ensures s'.ino[j] == s0.ino[j] && FileOk(s'.disk, s'.ino[j])
    ensures Contents(s'.disk, s'.ino[j]) == Contents(s0.disk, s0.ino[j])
  {
    InodeBlockInRange(l, |s.ino|, i);
    FileFrame(l, s0.disk, s'.disk, s0.ino, s0.own, j);
  }

  /** Inode copies on disk change only when inodes are stored. */
  lemma SyncedFrame(l: Layout, s0: Fs, s: Fs, i: nat, j: nat)
    requires Sized(l, s0.disk, s0.ino) && Sized(l, s.disk, s.ino) &&
             OnlyFile(l, s0.disk, s.disk, s0.ino, s.ino, s0.own, s.own, i)
    requires j < |s0.ino| && j != i && Synced(l, s0.disk, s0.ino, j)
    ensures Synced(l, s.disk, s.ino, j)
  {
    InodeBlockInRange(l, |s0.ino|, j);
  }

  /** What every operation leaves: ownership and the free map agree, no file has holes, and
      every inode's copy on disk is the one in memory. */
  ghost predicate Whole(l: Layout, s: Fs) {
    Good(l, s) && AllFiles(s.disk, s.ino) && AllSynced(l, s.disk, s.ino)
  }

  /** The contents of every file. */
  ghost function Files(s: Fs): (r: seq<seq<Byte>>)
    requires AllFiles(s.disk, s.ino)
    ensures |r| == |s.ino| && forall j: nat | j < |r| :: r[j] == Contents(s.disk, s.ino[j])
  {
    seq(|s.ino|, j requires 0 <= j < |s.ino| => Contents(s.disk, s.ino[j]))
  }

  ghost predicate NoSpace(l: Layout, s: Fs) {
    forall b: nat | l.datastart <= b < l.size :: b in s.own
  }

  /** Closing an operation on file i alone: the other files and inodes are as they were. */
  lemma CloseOthers(l: Layout, s0: Fs, s: Fs, s': Fs, i: nat, size: nat)
    requires Whole(l, s0) && Good(l, s) && OnlyFile(l, s0.disk, s.disk, s0.ino, s.ino, s0.own, s.own, i)
    requires InodeBlock(l, i) < |s.disk| && Storable(s.ino[i].(size := size)) && s' == Closed(l, s, i, size)
    ensures Good(l, s') && AllSynced(l, s'.disk, s'.ino) && |s'.ino| == |s0.ino|
    ensures forall j: nat | j < |s0.ino| && j != i ::
              FileOk(s'.disk, s'.ino[j]) && Contents(s'.disk, s'.ino[j]) == Contents(s0.disk, s0.ino[j])
  {
    CloseGood(l, s, s', i, size);
    forall j: nat | j < |s0.ino| && j != i
      ensures FileOk(s'.disk, s'.ino[j]) && Contents(s'.disk, s'.ino[j]) == Contents(s0.disk, s0.ino[j])
    {
      WriteOthers(l, s0, s, s', i, size, j);
    }
    forall j: nat | j < |s'.ino| ensures Synced(l, s'.disk, s'.ino, j) {
      if j != i { SyncedFrame(l, s0, s, i, j); }
      CloseSynced(l, s, s', i, size, j);
    }
  }

  lemma WriteWhole(l: Layout, s0: Fs, s: Fs, s': Fs, i: nat, off: nat, data: seq<Byte>, size: nat)
    requires Whole(l, s0) && Good(l, s) && Written(l, s0, s, i, off, data) && i < |s0.ino|
    requires size == Max(s0.ino[i].size, off + |data|)
    requires InodeBlock(l, i) < |s.disk| && Storable(s.ino[i].(size := size)) && s' == Closed(l, s, i, size)
    ensures Whole(l, s') && Files(s') == Files(s0)[i := Splice(Files(s0)[i], off, data)]
  {
    assert data + [] == data;
    SmearedWhole(l, s0, s, s', i, off, data, [], size);
    SmearNothing(Splice(Files(s0)[i], off, data), off + |data|);
  }

  /** A write that a fault ended: extra was copied and does not count. */
  lemma SmearedWhole(l: Layout, s0: Fs, s: Fs, s': Fs, i: nat, off: nat, data: seq<Byte>, extra: seq<Byte>, size: nat)
    requires Whole(l, s0) && Good(l, s) && Written(l, s0, s, i, off, data + extra) && i < |s0.ino|
    requires size == Max(s0.ino[i].size, off + |data|)
    requires InodeBlock(l, i) < |s.disk| && Storable(s.ino[i].(size := size)) && s' == Closed(l, s, i, size)
    ensures Whole(l, s') && off <= |Files(s0)[i]|
    ensures Files(s') == Files(s0)[i := Smear(Splice(Files(s0)[i], off, data), off + |data|, extra)]
  {
    WriteResult(l, s0, s, s', i, off, data, extra, size);
    CloseOthers(l, s0, s, s', i, size);
  }

  lemma TruncWhole(l: Layout, s0: Fs, s: Fs, s': Fs, i: nat)
    requires Whole(l, s0) && Good(l, s) && OnlyFile(l, s0.disk, s.disk, s0.ino, s.ino, s0.own, s.own, i)
    requires InodeBlock(l, i) < |s.disk| && Storable(s.ino[i].(size := 0)) && s' == Closed(l, s, i, 0)
    ensures Whole(l, s') && Files(s') == Files(s0)[i := []]
  {
    CloseOthers(l, s0, s, s', i, 0);
  }

  lemma KeptWritten(l: Layout, s0: Fs, s: Fs, s1: Fs, i: nat, off: nat, data: seq<Byte>)
    requires Written(l, s0, s, i, off, data) && Kept(l, s, s1, i)
    ensures Written(l, s0, s1, i, off, data)
  {
    OnlyFileTrans(l, s0.disk, s.disk, s1.disk, s0.ino, s.ino, s1.ino, s0.own, s.own, s1.own, i);
    forall o: nat | o < Max(s0.ino[i].size, off + |data|)
      ensures Slot(s1.disk, s1.ino[i].addrs, DataSlot(o / BSIZE)) != 0
      ensures ByteAt(s1.disk, s1.ino[i].addrs, o) == ByteAt(s.disk, s.ino[i].addrs, o)
    {
      assert Slot(s.disk, s.ino[i].addrs, DataSlot(o / BSIZE)) != 0;
    }
  }

  lemma NothingWritten(l: Layout, s: Fs, i: nat, off: nat)
    requires Good(l, s) && i < |s.ino| && FileOk(s.disk, s.ino[i]) && off <= s.ino[i].size
    ensures Written(l, s, s, i, off, [])
  {
  }

  /** What readi copies from one block is the file's bytes there. */
  lemma ReadRound(l: Layout, s: Fs, i: nat, n: nat, m: nat)
    requires Good(l, s) && i < |s.ino| && FileOk(s.disk, s.ino[i])
    requires 0 < m && n % BSIZE + m <= BSIZE && n + m <= s.ino[i].size
    ensures 0 != Slot(s.disk, s.ino[i].addrs, DataSlot(n / BSIZE)) < |s.disk|
    ensures s.disk[Slot(s.disk, s.ino[i].addrs, DataSlot(n / BSIZE))][n % BSIZE..n % BSIZE + m]
         == Contents(s.disk, s.ino[i])[n..n + m]
  {
    SlotInRange(l, s.disk, s.ino, s.own, i, DataSlot(n / BSIZE));
    var got, want := s.disk[Slot(s.disk, s.ino[i].addrs, DataSlot(n / BSIZE))][n % BSIZE..n % BSIZE + m],
      Contents(s.disk, s.ino[i])[n..n + m];
    forall t: nat | t < m ensures got[t] == want[t] {
      BlockSlice(s.disk, s.ino[i].addrs, n, t);
    }
  }

  // ---------------------------------------------------------------------------------------
  // Runs of writei's loop.

  /** The steps so far, latest last, with the states they led to: a bmap for the block at offset n,
      which returned addr and added the blocks of g, or a chunk copied. */
  datatype Steps =
    | Begun(now: Fs)
    | Looked(before: Steps, n: nat, addr: nat, g: Growth, now: Fs)
    | Copied(before: Steps, chunk: seq<Byte>, now: Fs)

  ghost function Data(h: Steps): seq<Byte> {
    match h
    case Begun(_) => []
    case Looked(before, _, _, _, _) => Data(before)
    case Copied(before, chunk, _) => Data(before) + chunk
  }

  /** h is a run of the loop on file i from s0, writing at off. */
  ghost predicate Wrote(l: Layout, s0: Fs, i: nat, off: nat, h: Steps)
    decreases h
  {
    match h
    case Begun(now) => now == s0 && Good(l, s0) && i < |s0.ino| && FileOk(s0.disk, s0.ino[i]) && off <= s0.ino[i].size
    case Looked(before, _, _, g, now) => Wrote(l, s0, i, off, before) && Grew(l, before.now, now, i, g)
    case Copied(before, chunk, now) =>
      && Wrote(l, s0, i, off, before) && CanPut(before.now, i, off + |Data(before)|, chunk)
      && now == Put(before.now, i, off + |Data(before)|, chunk)
  }

  /** After any steps the file holds what it held with the data spliced in. */
  lemma {:induction false} WroteKeeps(l: Layout, s0: Fs, i: nat, off: nat, h: Steps)
    requires Wrote(l, s0, i, off, h)
    ensures Good(l, h.now) && i < |h.now.ino| && Written(l, s0, h.now, i, off, Data(h))
    decreases h
  {
    match h
    case Begun(_) => NothingWritten(l, s0, i, off);
    case Looked(before, _, _, g, now) =>
      WroteKeeps(l, s0, i, off, before);
      LookedKeeps(l, s0, before.now, now, i, off, Data(before), g);
    case Copied(before, chunk, now) =>
      var data, n := Data(before), off + |Data(before)|;
      assert Data(h) == data + chunk && CanPut(before.now, i, n, chunk) && now == Put(before.now, i, n, chunk);
      WroteKeeps(l, s0, i, off, before);
      PutWritten(l, s0, before.now, now, i, off, data, n, chunk);
  }

  lemma LookedKeeps(l: Layout, s0: Fs, s: Fs, s1: Fs, i: nat, off: nat, data: seq<Byte>, g: Growth)
    requires Good(l, s) && i < |s.ino| && Written(l, s0, s, i, off, data) && Grew(l, s, s1, i, g)
    ensures Good(l, s1) && i < |s1.ino| && Written(l, s0, s1, i, off, data)
  {
    GrewKeeps(l, s, s1, i, g);
    KeptWritten(l, s0, s, s1, i, off, data);
  }

  // What writei's code may rely on between steps.

  lemma StepCopied(l: Layout, s0: Fs, i: nat, off: nat, h: Steps, n: nat, chunk: seq<Byte>, s: Fs)
    requires Wrote(l, s0, i, off, h) && n == off + |Data(h)| && CanPut(h.now, i, n, chunk) &&
             s == Put(h.now, i, n, chunk)
    ensures Wrote(l, s0, i, off, Copied(h, chunk, s))
  {
  }

  /** The block a write starts inside of is there already. */
  lemma FirstThere(l: Layout, s0: Fs, i: nat, off: nat, h: Steps)
    requires Wrote(l, s0, i, off, h) && Data(h) == [] && off % BSIZE != 0
    ensures i < |h.now.ino| && |h.now.ino[i].addrs| == NDIRECT + 1 && off < MAXFILE * BSIZE
    ensures Slot(h.now.disk, h.now.ino[i].addrs, DataSlot(off / BSIZE)) != 0
  {
    WroteKeeps(l, s0, i, off, h);
    assert (off - 1) / BSIZE == off / BSIZE;
    assert Slot(h.now.disk, h.now.ino[i].addrs, DataSlot((off - 1) / BSIZE)) != 0;
  }

  /** The size with which a write is closed can be stored, */
  lemma WroteStorable(l: Layout, s0: Fs, i: nat, off: nat, h: Steps, end: nat, size: nat)
    requires Wrote(l, s0, i, off, h) && i < |h.now.ino| && end <= off + |Data(h)|
    requires size == Max(h.now.ino[i].size, end)
    ensures InodeBlock(l, i) < |h.now.disk| && Storable(h.now.ino[i].(size := size))
  {
    assert size <= MAXFILE * BSIZE by { WroteSize(l, s0, i, off, h); }
    assert Good(l, h.now) by { WroteKeeps(l, s0, i, off, h); }
    CloseStorable(l, h.now, i, size);
  }

  lemma WroteSize(l: Layout, s0: Fs, i: nat, off: nat, h: Steps)
    requires Wrote(l, s0, i, off, h)
    ensures i < |s0.ino| && i < |h.now.ino| && h.now.ino[i].size == s0.ino[i].size
    ensures s0.ino[i].size <= MAXFILE * BSIZE && off + |Data(h)| <= MAXFILE * BSIZE
  {
    WroteKeeps(l, s0, i, off, h);
  }

  /** and then the files are the old ones with the data spliced in, and smeared with what a fault cut short. */
  lemma WroteWhole(l: Layout, s0: Fs, i: nat, off: nat, h: Steps, data: seq<Byte>, extra: seq<Byte>, size: nat, s': Fs)
    requires Whole(l, s0) && Wrote(l, s0, i, off, h) && i < |s0.ino| && i < |h.now.ino| && Data(h) == data + extra
    requires size == Max(h.now.ino[i].size, off + |data|)
    requires InodeBlock(l, i) < |h.now.disk| && Storable(h.now.ino[i].(size := size))
    requires s' == Closed(l, h.now, i, size)
    ensures Whole(l, s') && off <= |Files(s0)[i]|
    ensures Files(s') == Files(s0)[i := Smear(Splice(Files(s0)[i], off, data), off + |data|, extra)]
  {
    assert size == Max(s0.ino[i].size, off + |data|) by { WroteSize(l, s0, i, off, h); }
    assert Good(l, h.now) && Written(l, s0, h.now, i, off, data + extra) by { WroteKeeps(l, s0, i, off, h); }
    SmearedWhole(l, s0, h.now, s', i, off, data, extra, size);
  }

  lemma RoundReady(l: Layout, s0: Fs, i: nat, off: nat, h: Steps)
    requires Wrote(l, s0, i, off, h)
    ensures Sized(l, h.now.disk, h.now.ino) && i < |h.now.ino| && h.now.ino[i].addrs[NDIRECT] < |h.now.disk|
    ensures forall b: nat | b < l.datastart :: Used(l, h.now.disk, b)
  {
    WroteKeeps(l, s0, i, off, h);
    ReadyAt(l, h.now, i);
  }

  lemma RoundFull(l: Layout, s0: Fs, i: nat, off: nat, h: Steps)
    requires Wrote(l, s0, i, off, h)
    ensures |h.now.disk| == l.size && l.bmapstart + l.size / BPB < l.size
    ensures (forall b: nat | b < l.size :: Used(l, h.now.disk, b)) ==> NoSpace(l, h.now)
  {
    WroteKeeps(l, s0, i, off, h);
  }

  lemma RoundMapped(l: Layout, s0: Fs, i: nat, off: nat, h: Steps, bn: nat)
    requires Wrote(l, s0, i, off, h) && bn < MAXFILE
    ensures i < |h.now.ino| && |h.now.ino[i].addrs| == NDIRECT + 1
    ensures Slot(h.now.disk, h.now.ino[i].addrs, DataSlot(bn)) < |h.now.disk| == l.size
  {
    WroteKeeps(l, s0, i, off, h);
    SlotInRange(l, h.now.disk, h.now.ino, h.now.own, i, DataSlot(bn));
  }

  // ---------------------------------------------------------------------------------------
  // Writes in pieces.

  /** Files that held f0 hold f, after data has been written at off of file i, if off is in the
      file; otherwise nothing has. */
  ghost predicate Progress(f0: seq<seq<Byte>>, f: seq<seq<Byte>>, i: nat, off: nat, data: seq<Byte>) {
    i < |f0| && if off <= |f0[i]| then f == f0[i := Splice(f0[i], off, data)] else f == f0 && data == []
  }

  /** What a write that returned r has written of its chunk. */
  ghost function Done(chunk: seq<Byte>, r: int): seq<Byte>
    requires r <= |chunk|
  {
    if r > 0 then chunk[..r] else []
  }

  /** Two writes in a row are one write of the two pieces. */
  lemma SpliceTwice(c: seq<Byte>, off: nat, a: seq<Byte>, b: seq<Byte>)
    requires off <= |c|
    ensures off + |a| <= |Splice(c, off, a)|
    ensures Splice(Splice(c, off, a), off + |a|, b) == Splice(c, off, a + b)
  {
    var once, twice, both := Splice(c, off, a), Splice(Splice(c, off, a), off + |a|, b), Splice(c, off, a + b);
    assert |twice| == |both|;
    forall o | 0 <= o < |both| ensures twice[o] == both[o] {
    }
  }

  /** The next piece goes where the last one ended. */
  lemma ProgressMore(f0: seq<seq<Byte>>, f: seq<seq<Byte>>, f': seq<seq<Byte>>, i: nat, off: nat, data: seq<Byte>,
                     more: seq<Byte>)
    requires Progress(f0, f, i, off, data)
    requires if off + |data| <= |f[i]| then f' == f[i := Splice(f[i], off + |data|, more)] else f' == f && more == []
    ensures Progress(f0, f', i, off, data + more)
  {
    if off <= |f0[i]| { SpliceTwice(f0[i], off, data, more); }
  }

  lemma ProgressStart(f: seq<seq<Byte>>, i: nat, off: nat)
    requires i < |f|
    ensures Progress(f, f, i, off, [])
  {
    if off <= |f[i]| { assert Splice(f[i], off, []) == f[i]; }
  }
}
