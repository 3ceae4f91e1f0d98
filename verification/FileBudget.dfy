/** How many distinct blocks a write logs (filewrite of kernel/file.c, writei and bmap of
    kernel/fs.c): the data blocks, the bitmap blocks of those among them that are new, the
    indirect block and its bitmap block, and the inode's block. */
module FileBudget {
  import opened Common
  import opened BlockFormat
  import opened FileLayer

  const MAXOPBLOCKS := 10

  /** The most bytes filewrite gives to one operation. */
  const CHUNK := (MAXOPBLOCKS - 1 - 1 - 2) / 2 * BSIZE

  /** Blocks of a file that n bytes at off fall into. */
  ghost function Spanned(off: nat, n: nat): nat {
    if n == 0 then 0 else (off + n - 1) / BSIZE - off / BSIZE + 1
  }

  ghost function Range(lo: nat, n: nat): (r: set<nat>)
    ensures |r| == n && forall b :: b in r <==> lo <= b < lo + n
  {
    if n == 0 then {} else Range(lo, n - 1) + {lo + n - 1}
  }

  ghost function BitBlocks(l: Layout): set<nat> { Range(l.bmapstart, l.size / BPB + 1) }

  /** What a bmap may log on account of the indirect block, which was x0 and is x. */
  ghost function IndirectLog(l: Layout, x0: nat, x: nat): set<nat> {
    if x == 0 then {} else if x0 == 0 then {x, BitBlock(l, x)} else {x}
  }

  /** What it may log on account of the file's block itself. */
  ghost function DataLog(l: Layout, addr: nat): set<nat> {
    if addr == 0 then {} else {addr, BitBlock(l, addr)}
  }

  /** The first block of a write that does not start a block is already there, so needs no bitmap block. */
  ghost function Unaligned(off: nat, n: nat): nat { if off % BSIZE != 0 && n > 0 then 1 else 0 }

  ghost function Grown(x0: nat, x: nat): nat { if x0 == 0 && x != 0 then 1 else 0 }

  /** After tot bytes: d are the data blocks logged, b the bitmap blocks, x the indirect block. */
  ghost predicate Within(l: Layout, logged: set<nat>, x0: nat, x: nat, d: set<nat>, b: set<nat>, off: nat, tot: nat) {
    && logged <= d + b + {x} && b <= BitBlocks(l)
    && |d| <= Spanned(off, tot) && |b| + Unaligned(off, tot) <= Spanned(off, tot) + Grown(x0, x)
    && (x0 != 0 ==> x == x0) && (x == 0 ==> logged <= d + b)
    && d !! BitBlocks(l) && NotBits(l, x)
  }

  /** A block, if it is one, that is not a bitmap block. */
  ghost predicate NotBits(l: Layout, x: nat) { x != 0 ==> x !in BitBlocks(l) }

  lemma SpannedStep(off: nat, tot: nat, m: nat)
    requires tot == 0 || (off + tot) % BSIZE == 0
    requires 0 < m && (off + tot) % BSIZE + m <= BSIZE
    ensures Spanned(off, tot + m) == Spanned(off, tot) + 1
  {
  }

  lemma AddOne(s: set<nat>, x: nat)
    ensures |s + {x}| <= |s| + 1
  {
  }

  lemma BitBlockIn(l: Layout, x: nat)
    requires x < l.size
    ensures BitBlock(l, x) in BitBlocks(l)
  {
  }

  /** A round that finds its block there. */
  lemma OldBlock(l: Layout, logged: set<nat>, x0: nat, x: nat, d: set<nat>, b: set<nat>,
                 off: nat, tot: nat, m: nat, addr: nat)
    requires Within(l, logged, x0, x, d, b, off, tot)
    requires tot == 0 || (off + tot) % BSIZE == 0
    requires 0 < m && (off + tot) % BSIZE + m <= BSIZE && addr != 0 && NotBits(l, addr)
    ensures Within(l, logged + {addr}, x0, x, d + {addr}, b, off, tot + m)
  {
    SpannedStep(off, tot, m);
    AddOne(d, addr);
  }

  /** The indirect block becomes x'. */
  ghost function MoreBits(l: Layout, b: set<nat>, x: nat, x': nat): set<nat> {
    if x == 0 && x' != 0 then b + {BitBlock(l, x')} else b
  }

  /** A bmap that may have added the indirect block. */
  lemma AddedIndirect(l: Layout, logged: set<nat>, logged': set<nat>, x0: nat, x: nat, x': nat,
                      d: set<nat>, b: set<nat>, off: nat, tot: nat)
    requires Within(l, logged, x0, x, d, b, off, tot) && logged' <= logged + IndirectLog(l, x, x')
    requires x' < l.size && NotBits(l, x') && (x != 0 ==> x' == x)
    ensures Within(l, logged', x0, x', d, MoreBits(l, b, x, x'), off, tot)
  {
    if x == 0 && x' != 0 {
      AddOne(b, BitBlock(l, x'));
      BitBlockIn(l, x');
    }
  }

  /** A round that adds its block. */
  lemma NewBlock(l: Layout, logged: set<nat>, logged': set<nat>, x0: nat, x: nat, d: set<nat>, b: set<nat>,
                 off: nat, tot: nat, m: nat, addr: nat)
    requires Within(l, logged, x0, x, d, b, off, tot) && logged' <= logged + {addr, BitBlock(l, addr)} && addr < l.size
    requires if tot == 0 then off % BSIZE == 0 else (off + tot) % BSIZE == 0
    requires 0 < m && (off + tot) % BSIZE + m <= BSIZE && addr != 0 && NotBits(l, addr)
    ensures Within(l, logged', x0, x, d + {addr}, b + {BitBlock(l, addr)}, off, tot + m)
  {
    SpannedStep(off, tot, m);
    AddOne(d, addr);
    AddOne(b, BitBlock(l, addr));
    BitBlockIn(l, addr);
  }

  /** A round starts a block, unless it is the first, whose block is then there. */
  ghost predicate RoundStart(off: nat, tot: nat, there: bool) {
    if tot == 0 then off % BSIZE != 0 ==> there else (off + tot) % BSIZE == 0
  }

  /** One round of the loop: the block at off + tot was there or is new, or the disk is full. */
  lemma RoundCost(l: Layout, logged: set<nat>, logged': set<nat>, x0: nat, x: nat, x': nat,
                  d: set<nat>, b: set<nat>, off: nat, tot: nat, m: nat, addr: nat, there: bool)
    returns (d': set<nat>, b': set<nat>)
    requires Within(l, logged, x0, x, d, b, off, tot) && x' < l.size && addr < l.size && (x != 0 ==> x' == x)
    requires logged' <= logged + DataLog(l, addr) + IndirectLog(l, x, x')
    requires there ==> addr != 0 && logged' == logged + {addr} && x' == x
    requires NotBits(l, x') && NotBits(l, addr)
    requires RoundStart(off, tot, there) && 0 < m && (off + tot) % BSIZE + m <= BSIZE
    ensures Within(l, logged', x0, x', d', b', off, if addr != 0 then tot + m else tot)
  {
    if there {
      OldBlock(l, logged, x0, x, d, b, off, tot, m, addr);
      d', b' := d + {addr}, b;
    } else if addr == 0 {
      AddedIndirect(l, logged, logged', x0, x, x', d, b, off, tot);
      d', b' := d, MoreBits(l, b, x, x');
    } else {
      var mid := logged + IndirectLog(l, x, x');
      AddedIndirect(l, logged, mid, x0, x, x', d, b, off, tot);
      NewBlock(l, mid, logged', x0, x', d, MoreBits(l, b, x, x'), off, tot, m, addr);
      d', b' := d + {addr}, MoreBits(l, b, x, x') + {BitBlock(l, addr)};
    }
  }

  /** The bound on a whole write of n bytes, the inode's block included. */
  ghost function Cost(l: Layout, off: nat, n: nat): nat {
    var bits := Spanned(off, n) + 1 - Unaligned(off, n);
    Spanned(off, n) + (if bits < l.size / BPB + 1 then bits else l.size / BPB + 1) + 2
  }

  lemma Unions(d: set<nat>, b: set<nat>, x: nat, y: nat)
    ensures |d + b + {x} + {y}| <= |d| + |b| + 2
  {
    AddOne(d + b, x);
    AddOne(d + b + {x}, y);
  }

  lemma SpannedGrows(off: nat, tot: nat, n: nat)
    requires tot <= n
    ensures Spanned(off, tot) <= Spanned(off, n)
    ensures Spanned(off, tot) - Unaligned(off, tot) <= Spanned(off, n) - Unaligned(off, n)
  {
  }

  lemma WriteCost(l: Layout, logged: set<nat>, x0: nat, x: nat, d: set<nat>, b: set<nat>,
                  off: nat, tot: nat, n: nat, y: nat)
    requires Within(l, logged, x0, x, d, b, off, tot) && tot <= n
    ensures |logged + {y}| <= Cost(l, off, n)
  {
    SpannedGrows(off, tot, n);
    PartSize(b, BitBlocks(l));
    PartSize(logged + {y}, d + b + {x} + {y});
    Unions(d, b, x, y);
  }

  /** filewrite's chunks fit an operation: ten blocks at most, nine if the chunk starts a block,
      and seven if the disk has a single bitmap block. */
  lemma ChunkFits(l: Layout, off: nat, n: nat)
    requires n <= CHUNK
    ensures Cost(l, off, n) <= MAXOPBLOCKS
    ensures off % BSIZE == 0 ==> Cost(l, off, n) <= MAXOPBLOCKS - 1
    ensures l.size < BPB ==> Cost(l, off, n) <= MAXOPBLOCKS - 3
  {
    assert n > 0 ==> (off + n - 1) / BSIZE <= off / BSIZE + 3;
    assert n > 0 && off % BSIZE == 0 ==> (off + n - 1) / BSIZE <= off / BSIZE + 2;
  }
}
