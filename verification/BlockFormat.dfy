/** How the kernel lays numbers out in 1024-byte disk blocks: little-endian 32-bit words in
    indirect and inode blocks, and one bit per disk block in the free map (kernel/fs.h,
    kernel/fs.c). */
module BlockFormat {
  import opened Common

  const BSIZE := 1024
  const BPB := 8192         // bitmap bits per block
  const NWORDS := 256       // words per block

  type Block = b: seq<Byte> | |b| == 1024 witness seq(1024, _ => 0)

  function Zeros(n: nat): (r: seq<Byte>)
    ensures |r| == n && forall k | 0 <= k < n :: r[k] == 0
  {
    if n == 0 then [] else Zeros(n - 1) + [0]
  }

  const ZERO_BLOCK: Block := Zeros(1024)

  // ---------------------------------------------------------------------------------------
  // Words.

  function Word(b: Block, j: nat): nat
    requires j < NWORDS
  {
    var b0: nat, b1: nat, b2: nat, b3: nat := b[4 * j], b[4 * j + 1], b[4 * j + 2], b[4 * j + 3];
    b0 + 256 * b1 + 65536 * b2 + 16777216 * b3
  }

  predicate IsWord(w: nat) { w < 0x1_0000_0000 }

  function SetWord(b: Block, j: nat, w: nat): Block
    requires j < NWORDS && IsWord(w)
  {
    b[4 * j := w % 256][4 * j + 1 := w / 256 % 256][4 * j + 2 := w / 65536 % 256][4 * j + 3 := w / 16777216]
  }

  /** Writing a word and reading it back; the other words stay. */
  lemma WordAfterSet(b: Block, j: nat, w: nat, k: nat)
    requires j < NWORDS && k < NWORDS && IsWord(w)
    ensures Word(SetWord(b, j, w), k) == if k == j then w else Word(b, k)
  {
    if k == j { Digits(w); }
  }

  lemma Digits(w: nat)
    ensures w % 256 + 256 * (w / 256 % 256) + 65536 * (w / 65536 % 256) + 16777216 * (w / 16777216) == w
  {
    assert w / 65536 == w / 256 / 256;
    assert w / 16777216 == w / 65536 / 256;
  }

  function SetWords(b: Block, base: nat, ws: seq<nat>): Block
    requires base + |ws| <= NWORDS && forall w | w in ws :: IsWord(w)
    decreases ws
  {
    if ws == [] then b else SetWords(SetWord(b, base, ws[0]), base + 1, ws[1..])
  }

  lemma {:induction false} WordAfterSets(b: Block, base: nat, ws: seq<nat>, k: nat)
    requires base + |ws| <= NWORDS && k < NWORDS && forall w | w in ws :: IsWord(w)
    ensures Word(SetWords(b, base, ws), k) == if base <= k < base + |ws| then ws[k - base] else Word(b, k)
    decreases ws
  {
    if ws != [] {
      WordAfterSets(SetWord(b, base, ws[0]), base + 1, ws[1..], k);
      WordAfterSet(b, base, ws[0], k);
    }
  }

  function Words(b: Block, base: nat, n: nat): (r: seq<nat>)
    requires base + n <= NWORDS
    ensures |r| == n && forall k | 0 <= k < n :: r[k] == Word(b, base + k)
  {
    if n == 0 then [] else Words(b, base, n - 1) + [Word(b, base + n - 1)]
  }

  lemma ZeroWord(j: nat)
    requires j < NWORDS
    ensures Word(ZERO_BLOCK, j) == 0
  {
  }

  // ---------------------------------------------------------------------------------------
  // Bits.

  predicate Bit(x: nat, i: nat) {
    if i == 0 then x % 2 == 1 else Bit(x / 2, i - 1)
  }

  /** x | 1 << i, or x & ~(1 << i). */
  function PutBit(x: nat, i: nat, on: bool): nat {
    if i == 0 then 2 * (x / 2) + (if on then 1 else 0) else x % 2 + 2 * PutBit(x / 2, i - 1, on)
  }

  lemma {:induction false} BitAfterPut(x: nat, i: nat, on: bool, j: nat)
    ensures Bit(PutBit(x, i, on), j) == if j == i then on else Bit(x, j)
    decreases i
  {
    if i > 0 && j > 0 { BitAfterPut(x / 2, i - 1, on, j - 1); }
  }

  function Pow2(n: nat): nat { if n == 0 then 1 else 2 * Pow2(n - 1) }

  lemma {:induction false} PutBitBound(x: nat, i: nat, on: bool, n: nat)
    requires x < Pow2(n) && i < n
    ensures PutBit(x, i, on) < Pow2(n)
    decreases n
  {
    if i > 0 { PutBitBound(x / 2, i - 1, on, n - 1); }
  }

  lemma PutBitByte(x: Byte, i: nat, on: bool)
    requires i < 8
    ensures PutBit(x, i, on) < 256
  {
    assert Pow2(8) == 256 by { assert Pow2(4) == 16; assert Pow2(6) == 64; }
    PutBitBound(x, i, on, 8);
  }

  predicate BlockBit(b: Block, bi: nat)
    requires bi < BPB
  {
    Bit(b[bi / 8], bi % 8)
  }

  function PutBlockBit(b: Block, bi: nat, on: bool): Block
    requires bi < BPB
  {
    PutBitByte(b[bi / 8], bi % 8, on);
    b[bi / 8 := PutBit(b[bi / 8], bi % 8, on)]
  }

  lemma BlockBitAfterPut(b: Block, bi: nat, on: bool, bj: nat)
    requires bi < BPB && bj < BPB
    ensures BlockBit(PutBlockBit(b, bi, on), bj) == if bj == bi then on else BlockBit(b, bj)
  {
    BitAfterPut(b[bi / 8], bi % 8, on, bj % 8);
  }

  // ---------------------------------------------------------------------------------------
  // Bytes.

  /** memmove of data into a block at offset lo. */
  function Overwrite(b: Block, lo: nat, data: seq<Byte>): Block
    requires lo + |data| <= BSIZE
  {
    b[..lo] + data + b[lo + |data|..]
  }
}
