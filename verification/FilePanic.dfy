/** The limit on bitmap blocks is met by real writes: on a file system with eight of them, two chunks of
    filewrite beside each other, after two more have come and gone, find the header too long (filewrite
    of kernel/file.c, writei of kernel/fs.c, log_write of kernel/log.c). */
module FilePanic {
  import opened Common
  import opened BlockFormat
  import opened FileLayer
  import opened FileContents
  import opened FileBudget
  import opened FileLog
  import opened FileTight
  import opened FileReservation
  import R = LogReservation
  import S = SharedReservation

  // ---------------------------------------------------------------------------------------
  // Whole chunks.

  /** One of filewrite's operations: all of src, a chunk, is written at off of file i, from s to s'. */
  ghost predicate ChunkWrite(l: Layout, s: Fs, i: nat, off: nat, src: seq<Byte>, h: Steps, s': Fs) {
    && Whole(l, s) && i < |s.ino| && off <= s.ino[i].size && |src| == CHUNK && i < |h.now.ino|
    && Wrote(l, s, i, off, h) && Ran(l, s, i, off, src, h) && Finished(h, src) && Data(h) == src
    && var size := Max(h.now.ino[i].size, off + |src|);
       InodeBlock(l, i) < |h.now.disk| && Storable(h.now.ino[i].(size := size)) && s' == Closed(l, h.now, i, size)
  }

  /** A run from a file without holes is one of the loop's. */
  lemma {:induction false} RanWrote(l: Layout, s0: Fs, i: nat, off: nat, src: seq<Byte>, h: Steps)
    requires Ran(l, s0, i, off, src, h) && i < |s0.ino| && FileOk(s0.disk, s0.ino[i]) && off <= s0.ino[i].size
    ensures Wrote(l, s0, i, off, h)
    decreases h
  {
    match h
    case Begun(_) =>
    case Looked(before, _, _, _, _) => RanWrote(l, s0, i, off, src, before);
    case Copied(mid, _, _) =>
      RanWrote(l, s0, i, off, src, mid);
      RanAt(l, s0, i, off, src, mid);
  }

  lemma RanAt(l: Layout, s0: Fs, i: nat, off: nat, src: seq<Byte>, mid: Steps)
    requires Ran(l, s0, i, off, src, mid) && mid.Looked?
    ensures mid.n == off + |Data(mid)|
  {
  }

  lemma ChunkCloses(l: Layout, s: Fs, i: nat, off: nat, src: seq<Byte>, h: Steps) returns (s': Fs)
    requires Whole(l, s) && i < |s.ino| && off <= s.ino[i].size && |src| == CHUNK
    requires Ran(l, s, i, off, src, h) && !h.Looked? && Data(h) == src
    ensures ChunkWrite(l, s, i, off, src, h, s') && Whole(l, s') && s'.own == h.now.own
    ensures OnlyFile(l, s.disk, h.now.disk, s.ino, h.now.ino, s.own, h.now.own, i)
  {
    RanWrote(l, s, i, off, src, h);
    WroteSize(l, s, i, off, h);
    var size := Max(h.now.ino[i].size, off + |src|);
    WroteStorable(l, s, i, off, h, off + |src|, size);
    s' := Closed(l, h.now, i, size);
    assert src + [] == src;
    WroteWhole(l, s, i, off, h, src, [], size, s');
    WroteKeeps(l, s, i, off, h);
  }

  // ---------------------------------------------------------------------------------------
  // A chunk over blocks that are there.

  /** Rounds that wrote tot bytes of src, gave the file no block, and logged `log`. */
  ghost predicate Visits(s0: Fs, i: nat, off: nat, src: seq<Byte>, h: Steps, tot: nat, log: set<nat>) {
    && Ran(DISK, s0, i, off, src, h) && !h.Looked? && tot <= |src| && Data(h) == src[..tot]
    && LogOf(DISK, i, h) == log && h.now.own == s0.own
  }

  lemma VisitRound(s0: Fs, i: nat, off: nat, src: seq<Byte>, h: Steps, tot: nat, tot': nat, n: nat, at: nat,
                   log: set<nat>, log': set<nat>)
    returns (h': Steps)
    requires Visits(s0, i, off, src, h, tot, log) && tot < |src| && n == off + tot && log' == log + {at}
    requires tot' == tot + RoundLen(off, tot, |src|) && off + tot' <= MAXFILE * BSIZE
    requires at != 0 && at in s0.own && s0.own[at] == Place(i, DataSlot(n / BSIZE))
    ensures Visits(s0, i, off, src, h', tot', log')
  {
    RanGood(DISK, s0, i, off, src, h);
    SlotNamed(DISK, h.now, at, i, DataSlot(n / BSIZE));
    LookThere(DISK, h.now, i, n);
    var mid := Looked(h, n, at, Same, h.now);
    StepLooked(DISK, s0, i, off, src, h, mid, tot);
    MayCopyPiece(DISK, s0, i, off, src, mid, tot);
    var chunk := Piece(off, src, tot);
    var s2 := Put(h.now, i, n, chunk);
    StepRan(DISK, s0, i, off, src, mid, tot, chunk, s2);
    h' := Copied(mid, chunk, s2);
  }

  /** The blocks of a chunk at offset 1 of file i, whose blocks start at b. */
  ghost function VisitLog(b: nat): set<nat> { {b, b + 1, b + 2, b + 3} }

  lemma VisitNext(s0: Fs, i: nat, src: seq<Byte>, b: nat, k: nat, h: Steps, tot: nat, tot': nat, log: set<nat>,
                  log': set<nat>)
    returns (h': Steps)
    requires ClosedTo(s0, NINODES, false) && i < LAST && |src| == CHUNK && b == META + NSLOTS * i && k < 4
    requires Visits(s0, i, 1, src, h, tot, log) && tot < CHUNK && (1 + tot) / BSIZE == k
    requires tot' == tot + RoundLen(1, tot, CHUNK) && 1 + tot' <= MAXFILE * BSIZE && log' == log + {b + k}
    ensures Visits(s0, i, 1, src, h', tot', log')
  {
    VisitBlock(s0, i, b, k);
    h' := VisitRound(s0, i, 1, src, h, tot, tot', 1 + tot, b + k, log, log');
  }

  lemma VisitRun(s0: Fs, i: nat, src: seq<Byte>, b: nat) returns (h: Steps)
    requires ClosedTo(s0, NINODES, false) && i < LAST && |src| == CHUNK && b == META + NSLOTS * i
    ensures Visits(s0, i, 1, src, h, CHUNK, VisitLog(b))
  {
    var h0 := Begun(s0);
    var h1 := VisitNext(s0, i, src, b, 0, h0, 0, 1023, {}, {b});
    var h2 := VisitNext(s0, i, src, b, 1, h1, 1023, 2047, {b}, {b, b + 1});
    h := VisitEnd(s0, i, src, b, h2);
  }

  lemma VisitEnd(s0: Fs, i: nat, src: seq<Byte>, b: nat, h2: Steps) returns (h: Steps)
    requires ClosedTo(s0, NINODES, false) && i < LAST && |src| == CHUNK && b == META + NSLOTS * i
    requires Visits(s0, i, 1, src, h2, 2047, {b, b + 1})
    ensures Visits(s0, i, 1, src, h, CHUNK, VisitLog(b))
  {
    var h3 := VisitNext(s0, i, src, b, 2, h2, 2047, 3071, {b, b + 1}, {b, b + 1, b + 2});
    h := VisitNext(s0, i, src, b, 3, h3, 3071, 3072, {b, b + 1, b + 2}, VisitLog(b));
  }

  lemma VisitBlock(s0: Fs, i: nat, b: nat, k: nat)
    requires ClosedTo(s0, NINODES, false) && i < LAST && b == META + NSLOTS * i && k < 4
    ensures b + k in s0.own && s0.own[b + k] == Place(i, k)
  {
    InUse(false, i, k, NSLOTS * i + k);
  }

  /** Such a chunk leaves the files their blocks and sizes. */
  lemma Visit(s0: Fs, i: nat, src: seq<Byte>, b: nat) returns (h: Steps, s: Fs)
    requires ClosedTo(s0, NINODES, false) && i < LAST && |src| == CHUNK && b == META + NSLOTS * i
    ensures ChunkWrite(DISK, s0, i, 1, src, h, s) && ClosedTo(s, NINODES, false) && LogOf(DISK, i, h) == VisitLog(b)
  {
    NoHoles(s0);
    h := VisitRun(s0, i, src, b);
    assert src[..CHUNK] == src;
    s := ChunkCloses(DISK, s0, i, 1, src, h);
    SameSizes(s0, h.now, s, i);
  }

  lemma SameSizes(s0: Fs, s: Fs, s': Fs, i: nat)
    requires ClosedTo(s0, NINODES, false) && i < LAST && Whole(DISK, s') && s'.own == s.own == s0.own
    requires OnlyFile(DISK, s0.disk, s.disk, s0.ino, s.ino, s0.own, s.own, i)
    requires s'.ino == s.ino[i := s.ino[i].(size := Max(s.ino[i].size, 1 + CHUNK))]
    ensures ClosedTo(s', NINODES, false)
  {
    forall j: nat | j < NINODES ensures s'.ino[j].size == SizeOf(j) && Synced(DISK, s'.disk, s'.ino, j) {
      assert s0.ino[j].size == SizeOf(j);
    }
  }

  // ---------------------------------------------------------------------------------------
  // Chunks that make the short files longer.

  /** A short file, before it is written to. */
  ghost predicate Short(s: Fs, i: nat, at: nat, fs: seq<nat>) {
    Good(DISK, s) && Stage(DISK, s, i, 0, 12, fs) && i < |s.ino| && Slot(s.disk, s.ino[i].addrs, 11) == at
  }

  lemma FirstShort(s: Fs)
    requires ClosedTo(s, NINODES, false)
    ensures Short(s, LAST, 58708, SPARES)
  {
    StartStage(s, false);
    SlotInUse(s, false, LAST, 11);
  }

  /** The other short file is one still after the first has been made longer. */
  lemma OtherShort(s: Fs, h: Fs, s': Fs)
    requires ClosedTo(s, NINODES, false) && Whole(DISK, s') && s'.own == h.own && Lowest(DISK, s'.own, SPARES[4..])
    requires OnlyFile(DISK, s.disk, h.disk, s.ino, h.ino, s.own, h.own, LAST)
    requires |s'.ino| == |h.ino| && s'.ino[OTHER] == h.ino[OTHER]
    ensures Short(s', OTHER, 60322, SPARES[4..])
  {
    OtherBlocks(s, h);
    SlotNamed(DISK, s', 60322, OTHER, 11);
    SlotVacant(DISK, s', OTHER, NDIRECT);
  }

  lemma OtherBlocks(s: Fs, h: Fs)
    requires ClosedTo(s, NINODES, false) && OnlyFile(DISK, s.disk, h.disk, s.ino, h.ino, s.own, h.own, LAST)
    ensures 60322 in h.own && h.own[60322] == Place(OTHER, 11)
    ensures forall b | b in h.own && h.own[b].i == OTHER :: h.own[b].k < 12
  {
    InUse(false, OTHER, 11, 60267);
    assert 60322 in s.own && s.own[60322] == Place(OTHER, 11);
    forall b | b in h.own && h.own[b].i == OTHER ensures h.own[b].k < 12 {
      assert b in s.own && s.own[b] == PlaceOf(b - META) && b - META < DATA;
    }
  }

  lemma GrowthRun(s: Fs, i: nat, src: seq<Byte>, at: nat, fs: seq<nat>) returns (h: Steps)
    requires Short(s, i, at, fs) && |src| == CHUNK && |fs| >= 4 && fs[0] != 0 && at != 0
    ensures Ran(DISK, s, i, OFF, src, h) && !h.Looked? && Data(h) == src && LogOf(DISK, i, h) == {at} + LaterLog(fs)
    ensures Lowest(DISK, h.now.own, fs[4..])
  {
    h := TenRun(s, i, src, at, fs);
    assert src[..3072] == src;
  }

  // ---------------------------------------------------------------------------------------
  // Their operations in the log.

  ghost predicate Ran8(tr: S.Trace, c: S.Core) { S.Reached(R.XV6, CHUNK_SHAPE, 8, tr, c) }

  /** An operation that logs these blocks, its inode's block last, comes and goes beside operation 0. */
  lemma VisitOp(tr: S.Trace, c: S.Core, own: set<nat>, last: nat, c': S.Core) returns (tr': S.Trace)
    requires Ran8(tr, c) && c.active == map[0 := S.NEW] && !c.committing && S.Len(c) <= 5
    requires |own| == 4 && own !! c.own && last !in c.own + own
    requires c' == c.(own := c.own + own + {last})
    ensures Ran8(tr', c') && S.Len(c') == S.Len(c) + 5
  {
    var c1 := c.(active := S.Two(S.NEW, S.NEW));
    SecondOp(tr, c, c1);
    var tr2 := S.LogsOwn(R.XV6, CHUNK_SHAPE, 8, S.Then(tr, S.BeginOp(1)), c1, 1, own);
    assert |c.own + own| == |c.own| + 4;
    tr' := VisitLeaves(tr2, S.WithOwn(c1, 1, own), last, c');
  }

  lemma VisitLeaves(tr: S.Trace, c: S.Core, last: nat, c': S.Core) returns (tr': S.Trace)
    requires Ran8(tr, c) && c.active.Keys == {0, 1} && c.active[0] == S.NEW && c.active[1] == S.Spent(4, 0, false)
    requires !c.committing && last !in c.own && S.Len(c) <= 9
    requires c' == c.(own := c.own + {last}, active := map[0 := S.NEW])
    ensures Ran8(tr', c') && S.Len(c') == S.Len(c) + 1
  {
    var c1 := S.Next(c, S.LogLast(1, last));
    assert Ran8(S.Then(tr, S.LogLast(1, last)), c1);
    tr' := S.Then(S.Then(tr, S.LogLast(1, last)), S.EndOp(1));
    OpGone(c1, c');
  }

  lemma SecondOp(tr: S.Trace, c: S.Core, c1: S.Core)
    requires Ran8(tr, c) && c.active == map[0 := S.NEW] && !c.committing && S.Len(c) <= 10
    requires c1 == c.(active := S.Two(S.NEW, S.NEW))
    ensures Ran8(S.Then(tr, S.BeginOp(1)), c1)
  {
    assert R.Slots(2, 10) == 10 + R.Slots(1, 10) == 20;
    assert map[0 := S.NEW][1 := S.NEW] == S.Two(S.NEW, S.NEW);
  }

  lemma OpGone(c: S.Core, c': S.Core)
    requires c.active.Keys == {0, 1} && c.active[0] == S.NEW && !c.committing && c' == c.(active := map[0 := S.NEW])
    ensures S.Next(c, S.EndOp(1)) == c'
  {
    assert c.active - {1} == map[0 := S.NEW];
    assert |map[0 := S.NEW]| == 1;
  }

  // An operation that makes its file longer: five blocks, four bitmap blocks, and its inode's block.

  lemma OwnLogged(tr: S.Trace, c: S.Core, t: nat, own: set<nat>, c': S.Core) returns (tr': S.Trace)
    requires Ran8(tr, c) && t in c.active && c.active[t] == S.NEW && |own| == 5 && own !! c.own && S.Len(c) + 5 <= 29
    requires c' == c.(own := c.own + own, active := c.active[t := S.Spent(5, 0, false)])
    ensures Ran8(tr', c') && |c'.own| == |c.own| + 5
  {
    tr' := S.LogsOwn(R.XV6, CHUNK_SHAPE, 8, tr, c, t, own);
  }

  lemma BitsLogged(tr: S.Trace, c: S.Core, t: nat, bits: set<nat>, c': S.Core) returns (tr': S.Trace)
    requires Ran8(tr, c) && t in c.active && c.active[t] == S.Spent(5, 0, false) && |bits| == 4
    requires bits !! c.bits && bits <= S.Upto(8) && S.Len(c) + 4 <= 29
    requires c' == c.(bits := c.bits + bits, active := c.active[t := S.Spent(5, 4, false)])
    ensures Ran8(tr', c') && |c'.bits| == |c.bits| + 4
  {
    tr' := S.LogsBits(R.XV6, CHUNK_SHAPE, 8, tr, c, t, bits);
  }

  lemma LastLogged(tr: S.Trace, c: S.Core, t: nat, last: nat, c': S.Core) returns (tr': S.Trace)
    requires Ran8(tr, c) && t in c.active && c.active[t] == S.Spent(5, 4, false) && last !in c.own && S.Len(c) < 29
    requires c' == c.(own := c.own + {last}, active := c.active[t := S.Spent(6, 4, true)])
    ensures Ran8(tr', c') && |c'.own| == |c.own| + 1
  {
    tr' := S.Then(tr, S.LogLast(t, last));
  }

  lemma TwoSet(u: S.Spent, v: S.Spent, w: S.Spent)
    ensures S.Two(u, v)[0 := w] == S.Two(w, v) && S.Two(u, v)[1 := w] == S.Two(u, w)
  {
  }

  /** Operation 0 logs its blocks, its inode's block last. */
  lemma FirstGrows(tr: S.Trace, c: S.Core, a: set<nat>, ab: set<nat>, ai: nat, c': S.Core) returns (tr': S.Trace)
    requires Ran8(tr, c) && c.active == S.Two(S.NEW, S.NEW) && !c.committing && |c.own| == 10 && c.bits == {}
    requires |a| == 5 && a !! c.own && |ab| == 4 && ab <= S.Upto(8) && ai !in c.own + a
    requires c' == S.Core(c.own + a + {ai}, ab, S.Two(S.Spent(6, 4, true), S.NEW), false)
    ensures Ran8(tr', c') && |c'.own| == 16
  {
    TwoSet(S.NEW, S.NEW, S.Spent(5, 0, false));
    var c1 := S.Core(c.own + a, {}, S.Two(S.Spent(5, 0, false), S.NEW), false);
    var tr1 := OwnLogged(tr, c, 0, a, c1);
    tr' := FirstEnds(tr1, c1, ab, ai, c');
  }

  lemma FirstEnds(tr: S.Trace, c: S.Core, ab: set<nat>, ai: nat, c': S.Core) returns (tr': S.Trace)
    requires Ran8(tr, c) && c.active == S.Two(S.Spent(5, 0, false), S.NEW) && !c.committing && |c.own| == 15
    requires c.bits == {} && |ab| == 4 && ab <= S.Upto(8) && ai !in c.own
    requires c' == S.Core(c.own + {ai}, ab, S.Two(S.Spent(6, 4, true), S.NEW), false)
    ensures Ran8(tr', c') && |c'.own| == 16
  {
    TwoSet(S.Spent(5, 0, false), S.NEW, S.Spent(5, 4, false));
    TwoSet(S.Spent(5, 4, false), S.NEW, S.Spent(6, 4, true));
    assert {} + ab == ab;
    var c1 := S.Core(c.own, ab, S.Two(S.Spent(5, 4, false), S.NEW), false);
    var tr1 := BitsLogged(tr, c, 0, ab, c1);
    tr' := LastLogged(tr1, c1, 0, ai, c');
  }

  /** Operation 1 logs its blocks too, and comes to its inode's block. */
  lemma SecondGrows(tr: S.Trace, c: S.Core, b: set<nat>, bb: set<nat>, c': S.Core) returns (tr': S.Trace)
    requires Ran8(tr, c) && c.active == S.Two(S.Spent(6, 4, true), S.NEW) && !c.committing
    requires |c.own| == 16 && |c.bits| == 4 && |b| == 5 && b !! c.own && |bb| == 4 && bb <= S.Upto(8) && bb !! c.bits
    requires c' == S.Core(c.own + b, c.bits + bb, S.Two(S.Spent(6, 4, true), S.Spent(5, 4, false)), false)
    ensures Ran8(tr', c') && S.Panics(R.XV6, c')
  {
    TwoSet(S.Spent(6, 4, true), S.NEW, S.Spent(5, 0, false));
    TwoSet(S.Spent(6, 4, true), S.Spent(5, 0, false), S.Spent(5, 4, false));
    var c1 := S.Core(c.own + b, c.bits, S.Two(S.Spent(6, 4, true), S.Spent(5, 0, false)), false);
    var tr1 := OwnLogged(tr, c, 1, b, c1);
    tr' := BitsLogged(tr1, c1, 1, bb, c');
    assert S.Open(c', 1);
  }

  lemma GrowthPanics(tr: S.Trace, c: S.Core, a: set<nat>, ab: set<nat>, ai: nat, b: set<nat>, bb: set<nat>, c': S.Core)
    returns (tr': S.Trace)
    requires Ran8(tr, c) && c.active == map[0 := S.NEW] && !c.committing && |c.own| == 10 && c.bits == {}
    requires |a| == |b| == 5 && |ab| == |bb| == 4 && ab <= S.Upto(8) && bb <= S.Upto(8) && ab !! bb
    requires a !! c.own && ai !in c.own + a && b !! c.own + a + {ai}
    requires c' == S.Core(c.own + a + {ai} + b, ab + bb, S.Two(S.Spent(6, 4, true), S.Spent(5, 4, false)), false)
    ensures Ran8(tr', c') && S.Panics(R.XV6, c')
  {
    var c1 := c.(active := S.Two(S.NEW, S.NEW));
    SecondOp(tr, c, c1);
    var c2 := S.Core(c.own + a + {ai}, ab, S.Two(S.Spent(6, 4, true), S.NEW), false);
    var tr2 := FirstGrows(S.Then(tr, S.BeginOp(1)), c1, a, ab, ai, c2);
    tr' := SecondGrows(tr2, c2, b, bb, c');
  }

  lemma TwoVisits(v: set<nat>, vi: nat, w: set<nat>, wi: nat, c: S.Core) returns (tr: S.Trace)
    requires |v| == |w| == 4 && vi !in v && w !! v + {vi} && wi !in v + {vi} + w
    requires c == S.Core(v + {vi} + w + {wi}, {}, map[0 := S.NEW], false)
    ensures Ran8(tr, c) && |c.own| == 10
  {
    var tr0, c0 := S.FirstBegins(R.XV6, CHUNK_SHAPE, 8, S.Goal(0, 0, S.NEW, false, S.NEW));
    assert {} + v + {vi} == v + {vi};
    var c1 := S.Core(v + {vi}, {}, map[0 := S.NEW], false);
    var tr1 := VisitOp(tr0, c0, v, vi, c1);
    tr := VisitOp(tr1, c1, w, wi, c);
  }

  // ---------------------------------------------------------------------------------------
  // The theorem.

  /** Blocks of a log that are not bitmap blocks. */
  ghost function OwnOf(log: set<nat>): set<nat> { log - BitBlocks(DISK) }

  ghost predicate HasRow(log: set<nat>, r: nat) { DISK.bmapstart + r in log }

  /** The bitmap blocks of a log, by their place among them. */
  ghost function RowsOf(log: set<nat>): set<nat> { set r: nat | r < 8 && HasRow(log, r) }

  lemma FirstLog()
    ensures {58708} + LaterLog(SPARES) == {58708, 323, 8662, 17001, 25340} + {47, 48, 49, 50}
  {
  }

  lemma OtherLog()
    ensures {60322} + LaterLog(SPARES[4..]) == {60322, 33679, 42018, 50357, 58696} + {51, 52, 53, 54}
  {
  }

  /** The parts of a log that has four bitmap blocks in a row. */
  lemma Parts(log: set<nat>, own: set<nat>, r: nat)
    requires r <= 4 && log == own + {47 + r, 48 + r, 49 + r, 50 + r} && (forall b | b in own :: b >= META)
    ensures OwnOf(log) == own && RowsOf(log) == {r, r + 1, r + 2, r + 3}
  {
  }

  lemma VisitParts(log: set<nat>, b: nat)
    requires log == VisitLog(b) && b >= META
    ensures OwnOf(log) == log
  {
  }

  lemma VisitSize(b: nat)
    ensures |VisitLog(b)| == 4
  {
  }

  /** All of a chunk has been written at the end of file i. */
  ghost predicate Growth(s: Fs, i: nat, src: seq<Byte>, h: Steps) {
    && Whole(DISK, s) && i < |s.ino| && s.ino[i].size == OFF && |src| == CHUNK
    && Wrote(DISK, s, i, OFF, h) && Ran(DISK, s, i, OFF, src, h) && Finished(h, src) && Data(h) == src
  }

  /** Four chunks of filewrite, one after the other; the size of the last file is still to be set. */
  ghost predicate Story(src: seq<Byte>, s0: Fs, h0: Steps, s1: Fs, h1: Steps, s2: Fs, h2: Steps, s3: Fs, h3: Steps) {
    && ChunkWrite(DISK, s0, 1, 1, src, h0, s1) && ChunkWrite(DISK, s1, 17, 1, src, h1, s2)
    && ChunkWrite(DISK, s2, LAST, OFF, src, h2, s3) && Growth(s3, OTHER, src, h3)
  }

  lemma Visitors(src: seq<Byte>) returns (s0: Fs, h0: Steps, s1: Fs, h1: Steps, s2: Fs)
    requires |src| == CHUNK
    ensures ChunkWrite(DISK, s0, 1, 1, src, h0, s1) && ChunkWrite(DISK, s1, 17, 1, src, h1, s2)
    ensures LogOf(DISK, 1, h0) == VisitLog(324) && LogOf(DISK, 17, h1) == VisitLog(4628)
    ensures ClosedTo(s2, NINODES, false)
  {
    s0 := CloseAll(NINODES, false);
    h0, s1 := Visit(s0, 1, src, 324);
    h1, s2 := Visit(s1, 17, src, 4628);
  }

  lemma FirstGrowth(s2: Fs, src: seq<Byte>) returns (h2: Steps, s3: Fs)
    requires ClosedTo(s2, NINODES, false) && |src| == CHUNK
    ensures ChunkWrite(DISK, s2, LAST, OFF, src, h2, s3) && LogOf(DISK, LAST, h2) == {58708} + LaterLog(SPARES)
    ensures Whole(DISK, s3) && Short(s3, OTHER, 60322, SPARES[4..]) && s3.ino[OTHER].size == OFF
  {
    NoHoles(s2);
    FirstShort(s2);
    h2 := GrowthRun(s2, LAST, src, 58708, SPARES);
    s3 := ChunkCloses(DISK, s2, LAST, OFF, src, h2);
    OtherShort(s2, h2.now, s3);
  }

  lemma OtherGrowth(s3: Fs, src: seq<Byte>) returns (h3: Steps)
    requires Whole(DISK, s3) && Short(s3, OTHER, 60322, SPARES[4..]) && s3.ino[OTHER].size == OFF && |src| == CHUNK
    ensures Growth(s3, OTHER, src, h3) && LogOf(DISK, OTHER, h3) == {60322} + LaterLog(SPARES[4..])
  {
    h3 := GrowthRun(s3, OTHER, src, 60322, SPARES[4..]);
    RanWrote(DISK, s3, OTHER, OFF, src, h3);
  }

  // Which blocks those are, and that no two of the four have one in common.

  lemma VisitsApart(v: set<nat>, w: set<nat>)
    requires v == VisitLog(324) && w == VisitLog(4628)
    ensures |v| == |w| == 4 && 32 !in v && w !! v + {32} && 33 !in v + {32} + w
  {
    VisitSize(324);
    VisitSize(4628);
  }

  lemma FirstApart(o: set<nat>, log: set<nat>, a: set<nat>, ab: set<nat>)
    requires o == VisitLog(324) + {32} + VisitLog(4628) + {33} && log == {58708} + LaterLog(SPARES)
    requires a == OwnOf(log) && ab == RowsOf(log)
    ensures a == {58708, 323, 8662, 17001, 25340} && ab == {0, 1, 2, 3}
    ensures |a| == 5 && a !! o && 45 !in o + a
  {
    FirstLog();
    Parts(log, {58708, 323, 8662, 17001, 25340}, 0);
    FirstNew(o, a);
    FirstSize();
  }

  lemma FirstNew(o: set<nat>, a: set<nat>)
    requires o == VisitLog(324) + {32} + VisitLog(4628) + {33} && a == {58708, 323, 8662, 17001, 25340}
    ensures a !! o && 45 !in o + a
  {
  }

  lemma FirstSize()
    ensures |{58708, 323, 8662, 17001, 25340}| == 5
  {
  }

  lemma OtherApart(o: set<nat>, a: set<nat>, log: set<nat>, b: set<nat>, bb: set<nat>)
    requires o == VisitLog(324) + {32} + VisitLog(4628) + {33} && a == {58708, 323, 8662, 17001, 25340}
    requires log == {60322} + LaterLog(SPARES[4..]) && b == OwnOf(log) && bb == RowsOf(log)
    ensures |b| == 5 && bb == {4, 5, 6, 7} && b !! o + a + {45}
  {
    OtherLog();
    Parts(log, {60322, 33679, 42018, 50357, 58696}, 4);
    OtherNew(o, a, b);
  }

  lemma OtherNew(o: set<nat>, a: set<nat>, b: set<nat>)
    requires o == VisitLog(324) + {32} + VisitLog(4628) + {33} && a == {58708, 323, 8662, 17001, 25340}
    requires b == {60322, 33679, 42018, 50357, 58696}
    ensures |b| == 5 && b !! o + a + {45}
  {
  }

  lemma RowsApart(ab: set<nat>, bb: set<nat>)
    requires ab == {0, 1, 2, 3} && bb == {4, 5, 6, 7}
    ensures |ab| == |bb| == 4 && ab <= S.Upto(8) && bb <= S.Upto(8) && ab !! bb
  {
    assert ab == VisitLog(0) && bb == VisitLog(4);
    VisitSize(0);
    VisitSize(4);
    RowsIn(ab, 0);
    RowsIn(bb, 4);
  }

  lemma RowsIn(rows: set<nat>, r: nat)
    requires r <= 4 && rows == VisitLog(r)
    ensures rows <= S.Upto(8)
  {
  }

  /** Blocks of four operations, of which no two have one in common. */
  ghost predicate Distinct(v: set<nat>, w: set<nat>, a: set<nat>, ab: set<nat>, b: set<nat>, bb: set<nat>) {
    && |v| == |w| == 4 && 32 !in v && w !! v + {32} && 33 !in v + {32} + w
    && |a| == |b| == 5 && |ab| == |bb| == 4 && ab <= S.Upto(8) && bb <= S.Upto(8) && ab !! bb
    && var o := v + {32} + w + {33}; a !! o && 45 !in o + a && b !! o + a + {45}
  }

  lemma LogsDistinct(v: set<nat>, w: set<nat>, a: set<nat>, b: set<nat>)
    requires v == VisitLog(324) && w == VisitLog(4628)
    requires a == {58708} + LaterLog(SPARES) && b == {60322} + LaterLog(SPARES[4..])
    ensures Distinct(OwnOf(v), OwnOf(w), OwnOf(a), RowsOf(a), OwnOf(b), RowsOf(b))
  {
    VisitParts(v, 324);
    VisitParts(w, 4628);
    VisitsApart(v, w);
    var o := v + {32} + w + {33};
    FirstApart(o, a, OwnOf(a), RowsOf(a));
    OtherApart(o, OwnOf(a), b, OwnOf(b), RowsOf(b));
    RowsApart(RowsOf(a), RowsOf(b));
  }

  lemma HeaderPanics(v: set<nat>, w: set<nat>, a: set<nat>, ab: set<nat>, b: set<nat>, bb: set<nat>)
    returns (tr: S.Trace, c: S.Core)
    requires Distinct(v, w, a, ab, b, bb)
    ensures Ran8(tr, c) && S.Panics(R.XV6, c) && c.bits == ab + bb && c.own == v + {32} + w + {33} + a + {45} + b
    ensures c.active == S.Two(S.Spent(6, 4, true), S.Spent(5, 4, false))
  {
    var o := v + {32} + w + {33};
    var c1 := S.Core(o, {}, map[0 := S.NEW], false);
    var tr1 := TwoVisits(v, 32, w, 33, c1);
    c := S.Core(o + a + {45} + b, ab + bb, S.Two(S.Spent(6, 4, true), S.Spent(5, 4, false)), false);
    tr := GrowthPanics(tr1, c1, a, ab, 45, b, bb, c);
  }

  lemma Where()
    ensures Rows(DISK) == 8 && InodeBlock(DISK, 1) == 32 && InodeBlock(DISK, 17) == 33 && InodeBlock(DISK, LAST) == 45
  {
  }

  /**
   There is a file system with eight bitmap blocks, and four chunks that filewrite writes to it one after
   the other, such that if the third operation has begun before the first, and the fourth before the third
   logs, the fourth finds the header too long when it comes to log its inode.
   */
  lemma FilewritePanics(src: seq<Byte>)
    returns (s0: Fs, h0: Steps, s1: Fs, h1: Steps, s2: Fs, h2: Steps, s3: Fs, h3: Steps, tr: S.Trace, c: S.Core)
    requires |src| == CHUNK
    ensures Rows(DISK) == 8 && Story(src, s0, h0, s1, h1, s2, h2, s3, h3)
    ensures S.Reached(R.XV6, CHUNK_SHAPE, Rows(DISK), tr, c) && S.Panics(R.XV6, c)
    ensures c.own == OwnOf(LogOf(DISK, 1, h0)) + {InodeBlock(DISK, 1)} +
                     OwnOf(LogOf(DISK, 17, h1)) + {InodeBlock(DISK, 17)} +
                     OwnOf(LogOf(DISK, LAST, h2)) + {InodeBlock(DISK, LAST)} + OwnOf(LogOf(DISK, OTHER, h3))
    ensures c.bits == RowsOf(LogOf(DISK, LAST, h2)) + RowsOf(LogOf(DISK, OTHER, h3))
    ensures c.active == S.Two(S.Spent(6, 4, true), S.Spent(5, 4, false))
  {
    s0, h0, s1, h1, s2 := Visitors(src);
    h2, s3 := FirstGrowth(s2, src);
    h3 := OtherGrowth(s3, src);
    var v, w := LogOf(DISK, 1, h0), LogOf(DISK, 17, h1);
    var a, b := LogOf(DISK, LAST, h2), LogOf(DISK, OTHER, h3);
    LogsDistinct(v, w, a, b);
    tr, c := HeaderPanics(OwnOf(v), OwnOf(w), OwnOf(a), RowsOf(a), OwnOf(b), RowsOf(b));
    Where();
  }
}
