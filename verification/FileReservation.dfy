/** Where filewrite's chunks meet begin_op's reservation (kernel/file.c, kernel/log.c). */
module FileReservation {
  import opened Common
  import opened BlockFormat
  import opened FileLayer
  import opened FileContents
  import opened FileBudget
  import opened FileLog
  import R = LogReservation
  import S = SharedReservation

  /** Bitmap blocks of the disk. */
  ghost function Rows(l: Layout): nat { l.size / BPB + 1 }

  /** Four data blocks, the indirect block and the inode's block; and four bitmap blocks. */
  const CHUNK_SHAPE := S.Shape(6, 4)

  /** Every chunk's operation has that shape: before the inode's block, which is logged last. */
  lemma ChunkShape(l: Layout, s0: Fs, i: nat, off: nat, src: seq<Byte>, h: Steps, log: set<nat>)
    requires Wrote(l, s0, i, off, h) && Ran(l, s0, i, off, src, h) && off + |src| <= MAXFILE * BSIZE && |src| <= CHUNK
    requires log == LogOf(l, i, h)
    ensures |log - BitBlocks(l)| < CHUNK_SHAPE.own && |log * BitBlocks(l)| <= CHUNK_SHAPE.bits
    ensures InodeBlock(l, i) !in BitBlocks(l)
  {
    var tot, d, b, x := RunParts(l, s0, i, off, src, h);
    ChunkSpans(off, tot);
    AddOne(d, x);
    PartSize(log - BitBlocks(l), d + {x});
    PartSize(log * BitBlocks(l), b);
    WroteStart(l, s0, i, off, h);
    InodeBlockInRange(l, |s0.ino|, i);
  }

  lemma ChunkSpans(off: nat, n: nat)
    requires n <= CHUNK
    ensures Spanned(off, n) <= 4 && Spanned(off, n) + 1 - Unaligned(off, n) <= 4
  {
    assert n > 0 ==> (off + n - 1) / BSIZE <= off / BSIZE + 3;
    assert n > 0 && off % BSIZE == 0 ==> (off + n - 1) / BSIZE <= off / BSIZE + 2;
  }

  /** A chunk that logs as much as an operation may fills the shape. */
  lemma ChunkFillsShape(l: Layout, s0: Fs, i: nat, off: nat, src: seq<Byte>, h: Steps, log: set<nat>)
    requires Wrote(l, s0, i, off, h) && Ran(l, s0, i, off, src, h) && off + |src| <= MAXFILE * BSIZE && |src| <= CHUNK
    requires log == LogOf(l, i, h) && |log + {InodeBlock(l, i)}| == MAXOPBLOCKS
    ensures |log - BitBlocks(l)| == CHUNK_SHAPE.own - 1 && |log * BitBlocks(l)| == CHUNK_SHAPE.bits
    ensures InodeBlock(l, i) !in log
  {
    ChunkShape(l, s0, i, off, src, h, log);
    assert log == (log - BitBlocks(l)) + (log * BitBlocks(l));
    AddOne(log, InodeBlock(l, i));
  }

  /** Operations of that shape never find the header too long, in any interleaving, exactly when the
      disk has at most seven bitmap blocks. */
  lemma ChunkReservation(l: Layout)
    ensures (forall c | S.Reachable(R.XV6, CHUNK_SHAPE, Rows(l), c) :: !S.Panics(R.XV6, c)) <==> Rows(l) <= 7
  {
    S.SharedExact(R.XV6, CHUNK_SHAPE, Rows(l));
  }
}
