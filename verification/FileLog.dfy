/** Exactly which blocks a write passes to log_write, round by round (writei, bmap and balloc of
    kernel/fs.c). */
module FileLog {
  import opened Common
  import opened BlockFormat
  import opened FileLayer
  import opened FileContents
  import opened FileBudget

  /** What allocating the blocks of g logs, x being the indirect block. */
  ghost function GrowthLog(l: Layout, x: nat, g: Growth): set<nat> {
    match g
    case Same => {}
    case AddedAddr(before, _, b) => GrowthLog(l, x, before) + {BitBlock(l, b), b}
    case AddedEntry(before, _, b) => GrowthLog(l, x, before) + {BitBlock(l, b), b, x}
  }

  /** What a bmap of file block bn adds: the slot held `slot` and now holds addr, the indirect
      block was x0 and is x. */
  ghost function BmapGrowth(slot: nat, x0: nat, x: nat, bn: nat, addr: nat): Growth {
    if slot != 0 then Same
    else if bn < NDIRECT then if addr == 0 then Same else AddedAddr(Same, bn, addr)
    else
      var g := if x0 == 0 && x != 0 then AddedAddr(Same, NDIRECT, x) else Same;
      if addr == 0 then g else AddedEntry(g, bn - NDIRECT, addr)
  }

  /** The slots of an indirect block just added are empty. */
  lemma NewIndirect(l: Layout, disk: Disk, a: seq<nat>, j: nat, x: nat)
    requires |a| == NDIRECT + 1 && j < NINDIRECT && a[NDIRECT] == 0 && x < |disk| && BitBlock(l, x) < |disk|
    ensures Slot(disk, a, NDIRECT + 1 + j) == 0 == Slot(Taken(l, disk, x), a[NDIRECT := x], NDIRECT + 1 + j)
  {
    ZeroWord(j);
  }

  /** The log after the indirect block and then its entry have been looked up, or added. */
  lemma EntryLogged(l: Layout, was: set<nat>, mid: set<nat>, log: set<nat>, x0: nat, x: nat, slot: nat, bn: nat,
                    addr: nat, g0: Growth, g: Growth)
    requires bn >= NDIRECT && x != 0 && (x0 != 0 ==> x == x0)
    requires g0 == if x0 != 0 then Same else AddedAddr(Same, NDIRECT, x)
    requires mid == if x0 != 0 then was else was + {BitBlock(l, x), x}
    requires g == if slot != 0 || addr == 0 then g0 else AddedEntry(g0, bn - NDIRECT, addr)
    requires log == if slot != 0 || addr == 0 then mid else mid + {BitBlock(l, addr), addr, x}
    ensures log == was + GrowthLog(l, x, g)
  {
    assert GrowthLog(l, x, g0) == if x0 != 0 then {} else {BitBlock(l, x), x};
  }

  /** What a bmap logs is on account of the block or of the indirect block. */
  lemma GrowthWithin(l: Layout, slot: nat, x0: nat, x: nat, bn: nat, addr: nat)
    requires x0 != 0 ==> x == x0
    requires slot == 0 && bn >= NDIRECT && addr != 0 ==> x != 0
    ensures GrowthLog(l, x, BmapGrowth(slot, x0, x, bn, addr)) <= DataLog(l, addr) + IndirectLog(l, x0, x)
  {
    var g := if x0 == 0 && x != 0 then AddedAddr(Same, NDIRECT, x) else Same;
    assert GrowthLog(l, x, g) <= IndirectLog(l, x0, x);
  }

  ghost predicate NoneFree(l: Layout, disk: Disk) {
    forall b: nat | b < |disk| && BitBlock(l, b) < |disk| :: Used(l, disk, b)
  }

  /** bmap for the block at offset n of file i returns addr, the block it found or added, or 0,
      leading from s to s1. */
  ghost predicate Looks(l: Layout, s: Fs, i: nat, n: nat, addr: nat, g: Growth, s1: Fs) {
    && i < |s.ino| == |s1.ino| && |s.ino[i].addrs| == NDIRECT + 1 == |s1.ino[i].addrs| && n < MAXFILE * BSIZE
    && (addr != 0 ==> addr == Slot(s1.disk, s1.ino[i].addrs, DataSlot(n / BSIZE)))
    && (addr == 0 ==> Slot(s.disk, s.ino[i].addrs, DataSlot(n / BSIZE)) == 0 && NoneFree(l, s1.disk))
    && Grew(l, s, s1, i, g)
    && g == BmapGrowth(Slot(s.disk, s.ino[i].addrs, DataSlot(n / BSIZE)), s.ino[i].addrs[NDIRECT],
                       s1.ino[i].addrs[NDIRECT], n / BSIZE, addr)
  }

  /** Bytes one round of writei's loop copies: to the end of the block or of the n bytes. */
  function RoundLen(off: nat, tot: nat, n: nat): nat
    requires tot <= n
  {
    if n - tot < BSIZE - (off + tot) % BSIZE then n - tot else BSIZE - (off + tot) % BSIZE
  }

  /** The piece of src that the round after tot bytes copies. */
  function Piece(off: nat, src: seq<Byte>, tot: nat): seq<Byte>
    requires tot <= |src|
  {
    src[tot..tot + RoundLen(off, tot, |src|)]
  }

  /** h is writei's loop for src at off of file i, from s0. */
  ghost predicate Ran(l: Layout, s0: Fs, i: nat, off: nat, src: seq<Byte>, h: Steps)
    decreases h
  {
    match h
    case Begun(now) => now == s0 && Good(l, s0) && i < |s0.ino|
    case Looked(before, n, addr, g, now) =>
      && !before.Looked? && Ran(l, s0, i, off, src, before) && |Data(before)| < |src| && n == off + |Data(before)|
      && Looks(l, before.now, i, n, addr, g, now)
    case Copied(mid, chunk, now) =>
      && mid.Looked? && mid.addr != 0 && Ran(l, s0, i, off, src, mid) && |Data(mid)| < |src|
      && chunk == Piece(off, src, |Data(mid)|)
      && CanPut(mid.now, i, mid.n, chunk) && now == Put(mid.now, i, mid.n, chunk)
  }

  /** No round is under way: all were whole, but that the last may have found the disk full. */
  ghost predicate Stopped(h: Steps) { h.Looked? ==> h.addr == 0 }

  /** The loop is over: all of src is written, or the disk is full. */
  ghost predicate Finished(h: Steps, src: seq<Byte>) { Stopped(h) && (h.Looked? || |Data(h)| == |src|) }

  /** The block at offset n of file i. */
  ghost function At(s: Fs, i: nat, n: nat): nat {
    if i < |s.ino| && |s.ino[i].addrs| == NDIRECT + 1 && n < MAXFILE * BSIZE
    then Slot(s.disk, s.ino[i].addrs, DataSlot(n / BSIZE)) else 0
  }

  ghost function Pointer(s: Fs, i: nat): nat {
    if i < |s.ino| && |s.ino[i].addrs| == NDIRECT + 1 then s.ino[i].addrs[NDIRECT] else 0
  }

  /** The blocks logged by the loop: those bmap added, and those written to. */
  ghost function LogOf(l: Layout, i: nat, h: Steps): set<nat> {
    match h
    case Begun(_) => {}
    case Looked(before, _, _, g, now) => LogOf(l, i, before) + GrowthLog(l, Pointer(now, i), g)
    case Copied(mid, _, _) => LogOf(l, i, mid) + if mid.Looked? then {mid.addr} else {}
  }

  lemma StepLooked(l: Layout, s0: Fs, i: nat, off: nat, src: seq<Byte>, h: Steps, mid: Steps, tot: nat)
    requires Ran(l, s0, i, off, src, h) && !h.Looked? && tot < |src| && Data(h) == src[..tot]
    requires mid.Looked? && mid.before == h && mid.n == off + tot && Looks(l, h.now, i, mid.n, mid.addr, mid.g, mid.now)
    ensures Ran(l, s0, i, off, src, mid) && Data(mid) == src[..tot]
    ensures LogOf(l, i, mid) == LogOf(l, i, h) + GrowthLog(l, Pointer(mid.now, i), mid.g)
  {
  }

  /** The copy of a round. */
  lemma StepRan(l: Layout, s0: Fs, i: nat, off: nat, src: seq<Byte>, mid: Steps, tot: nat, chunk: seq<Byte>, s2: Fs)
    requires Ran(l, s0, i, off, src, mid) && mid.Looked? && mid.addr != 0 && tot < |src| && Data(mid) == src[..tot]
    requires chunk == Piece(off, src, tot) && CanPut(mid.now, i, mid.n, chunk) && s2 == Put(mid.now, i, mid.n, chunk)
    ensures Ran(l, s0, i, off, src, Copied(mid, chunk, s2)) &&
            LogOf(l, i, Copied(mid, chunk, s2)) == LogOf(l, i, mid) + {mid.addr}
    ensures tot + |chunk| <= |src| && Data(Copied(mid, chunk, s2)) == src[..tot + |chunk|]
  {
    assert src[..tot] + chunk == src[..tot + |chunk|];
  }

  lemma CanCopy(l: Layout, s: Fs, i: nat, n: nat, at: nat, g: Growth, s1: Fs, chunk: seq<Byte>, s2: Fs)
    requires Looks(l, s, i, n, at, g, s1) && 0 != at < |s1.disk|
    requires n % BSIZE + |chunk| <= BSIZE && |chunk| > 0 && n + |chunk| <= MAXFILE * BSIZE
    requires s2 == s1.(disk := s1.disk[at := Overwrite(s1.disk[at], n % BSIZE, chunk)])
    ensures CanPut(s1, i, n, chunk) && s2 == Put(s1, i, n, chunk)
  {
  }

  lemma RoundCopied(l: Layout, s0: Fs, i: nat, off: nat, src: seq<Byte>, mid: Steps, tot: nat, chunk: seq<Byte>, s2: Fs)
    requires Wrote(l, s0, i, off, mid) && Ran(l, s0, i, off, src, mid) && tot < |src| && Data(mid) == src[..tot]
    requires mid.Looked? && mid.n == off + tot && 0 != mid.addr < |mid.now.disk| && chunk == Piece(off, src, tot)
    requires |chunk| > 0 && mid.n % BSIZE + |chunk| <= BSIZE && mid.n + |chunk| <= MAXFILE * BSIZE
    requires s2 == mid.now.(disk := mid.now.disk[mid.addr := Overwrite(mid.now.disk[mid.addr], mid.n % BSIZE, chunk)])
    ensures Wrote(l, s0, i, off, Copied(mid, chunk, s2)) && Ran(l, s0, i, off, src, Copied(mid, chunk, s2))
    ensures LogOf(l, i, Copied(mid, chunk, s2)) == LogOf(l, i, mid) + {mid.addr}
    ensures tot + |chunk| <= |src| && Data(Copied(mid, chunk, s2)) == src[..tot + |chunk|]
  {
    CanCopy(l, mid.before.now, i, mid.n, mid.addr, mid.g, mid.now, chunk, s2);
    StepCopied(l, s0, i, off, mid, mid.n, chunk, s2);
    StepRan(l, s0, i, off, src, mid, tot, chunk, s2);
  }

  lemma RunBegun(l: Layout, s0: Fs, i: nat, off: nat, src: seq<Byte>, h: Steps)
    requires Good(l, s0) && i < |s0.ino| && FileOk(s0.disk, s0.ino[i]) && off <= s0.ino[i].size && h == Begun(s0)
    ensures Wrote(l, s0, i, off, h) && Ran(l, s0, i, off, src, h) && Data(h) == src[..0] && LogOf(l, i, h) == {}
  {
  }

  // ---------------------------------------------------------------------------------------
  // The loop's log is within the budget.

  predicate Edge(off: nat, tot: nat, n: nat) {
    tot == 0 || tot == n || (off + tot) % BSIZE == 0
  }

  lemma RoundEdge(off: nat, tot: nat, n: nat)
    requires tot < n
    ensures var m := RoundLen(off, tot, n);
            0 < m && (off + tot) % BSIZE + m <= BSIZE && tot + m <= n && Edge(off, tot + m, n)
  {
  }

  /** A round starts a block, or its block is there. */
  lemma RoundStarts(off: nat, tot: nat, n: nat, there: bool)
    requires tot < n && Edge(off, tot, n) && (tot == 0 && off % BSIZE != 0 ==> there)
    ensures RoundStart(off, tot, there)
  {
  }

  lemma RoundWithin(l: Layout, logged: set<nat>, logged': set<nat>, x0: nat, x: nat, x': nat,
                    d: set<nat>, b: set<nat>, off: nat, tot: nat, tot': nat, n: nat, bn: nat,
                    addr: nat, slot: nat, g: Growth)
    returns (d': set<nat>, b': set<nat>)
    requires Within(l, logged, x0, x, d, b, off, tot) && Charged(l, bn, x, x', addr, slot, g)
    requires RoundStart(off, tot, slot != 0)
    requires logged' == logged + GrowthLog(l, x', g) + if addr != 0 then {addr} else {}
    requires tot < n && tot' == if addr == 0 then tot else tot + RoundLen(off, tot, n)
    ensures Within(l, logged', x0, x', d', b', off, tot') && (addr != 0 ==> Edge(off, tot', n) && tot' <= n)
  {
    RoundEdge(off, tot, n);
    var m := RoundLen(off, tot, n);
    GrowthWithin(l, slot, x, x', bn, addr);
    d', b' := RoundCost(l, logged, logged', x0, x, x', d, b, off, tot, m, addr, slot != 0);
  }

  lemma {:induction false} PointerStays(l: Layout, s: Fs, s1: Fs, i: nat, g: Growth)
    requires Grew(l, s, s1, i, g) && Pointer(s, i) != 0
    ensures Pointer(s1, i) == Pointer(s, i)
    decreases g
  {
    match g
    case Same =>
    case AddedAddr(before, k, b) =>
      var s2 :| Grew(l, s, s2, i, before) && CanAddAddr(l, s2, i, k, b) && s1 == AddAddr(l, s2, i, k, b);
      PointerStays(l, s, s2, i, before);
    case AddedEntry(before, j, b) =>
      var s2 :| Grew(l, s, s2, i, before) && CanAddEntry(l, s2, i, j, b) && s1 == AddEntry(l, s2, i, j, b);
      PointerStays(l, s, s2, i, before);
  }

  lemma InRange(l: Layout, s0: Fs, i: nat, off: nat, h: Steps, n: nat)
    requires Wrote(l, s0, i, off, h) && n < MAXFILE * BSIZE
    ensures Pointer(h.now, i) < l.size && At(h.now, i, n) < l.size
    ensures NotBits(l, Pointer(h.now, i)) && NotBits(l, At(h.now, i, n))
  {
    WroteKeeps(l, s0, i, off, h);
    DataInRange(l, h.now, i, n);
  }

  lemma DataInRange(l: Layout, s: Fs, i: nat, n: nat)
    requires Good(l, s) && i < |s.ino| && n < MAXFILE * BSIZE
    ensures Pointer(s, i) < l.size && At(s, i, n) < l.size && NotBits(l, Pointer(s, i)) && NotBits(l, At(s, i, n))
  {
    SlotInRange(l, s.disk, s.ino, s.own, i, NDIRECT);
    SlotInRange(l, s.disk, s.ino, s.own, i, DataSlot(n / BSIZE));
  }

  /** The facts about a bmap of the block bn that its budget depends on. */
  ghost predicate Charged(l: Layout, bn: nat, x: nat, x': nat, addr: nat, slot: nat, g: Growth) {
    && x' < l.size && addr < l.size && (x != 0 ==> x' == x) && NotBits(l, x') && NotBits(l, addr)
    && g == BmapGrowth(slot, x, x', bn, addr)
    && (slot == 0 && bn >= NDIRECT && addr != 0 ==> x' != 0)
    && (slot != 0 ==> addr != 0 && x' == x)
  }

  lemma RoundCharged(l: Layout, s0: Fs, i: nat, off: nat, mid: Steps, bn: nat, x: nat, x': nat, slot: nat)
    requires mid.Looked? && Wrote(l, s0, i, off, mid) && Looks(l, mid.before.now, i, mid.n, mid.addr, mid.g, mid.now)
    requires bn == mid.n / BSIZE && x == Pointer(mid.before.now, i) && x' == Pointer(mid.now, i) &&
             slot == At(mid.before.now, i, mid.n)
    ensures Charged(l, bn, x, x', mid.addr, slot, mid.g)
  {
    InRange(l, s0, i, off, mid, mid.n);
    LooksCharged(mid.before.now, i, mid.n, l, mid.addr, mid.g, mid.now, x, x', slot);
  }

  lemma LooksCharged(s: Fs, i: nat, n: nat, l: Layout, addr: nat, g: Growth, s1: Fs, x: nat, x': nat, slot: nat)
    requires Looks(l, s, i, n, addr, g, s1) && x == Pointer(s, i) && x' == Pointer(s1, i) && slot == At(s, i, n)
    ensures (x != 0 ==> x' == x) && g == BmapGrowth(slot, x, x', n / BSIZE, addr)
    ensures slot == 0 && n / BSIZE >= NDIRECT && addr != 0 ==> x' != 0
    ensures slot != 0 ==> addr != 0 && x' == x
  {
    if x != 0 { PointerStays(l, s, s1, i, g); }
  }

  /** Where a round starts or ends: the steps so far, the bytes written, the indirect block and the log. */
  datatype Point = Point(h: Steps, tot: nat, x: nat, log: set<nat>)

  ghost function PointOf(l: Layout, i: nat, h: Steps): Point {
    Point(h, |Data(h)|, Pointer(h.now, i), LogOf(l, i, h))
  }

  /** A bmap. */
  lemma LookedPoint(l: Layout, s0: Fs, i: nat, off: nat, src: seq<Byte>, mid: Steps, p0: Point, bn: nat, slot: nat)
    requires Wrote(l, s0, i, off, mid) && Ran(l, s0, i, off, src, mid) && mid.Looked? && p0 == PointOf(l, i, mid.before)
    requires bn == mid.n / BSIZE && slot == At(mid.before.now, i, mid.n)
    ensures Wrote(l, s0, i, off, p0.h) && Ran(l, s0, i, off, src, p0.h) && !p0.h.Looked? && p0.tot < |src|
    ensures PointOf(l, i, mid)
         == Point(mid, p0.tot, Pointer(mid.now, i), p0.log + GrowthLog(l, Pointer(mid.now, i), mid.g))
    ensures Charged(l, bn, p0.x, Pointer(mid.now, i), mid.addr, slot, mid.g)
  {
    RoundCharged(l, s0, i, off, mid, bn, p0.x, Pointer(mid.now, i), slot);
  }

  lemma StartPoint(l: Layout, s0: Fs, i: nat, off: nat, src: seq<Byte>, mid: Steps, p0: Point, slot: nat)
    requires Wrote(l, s0, i, off, mid) && Ran(l, s0, i, off, src, mid) && mid.Looked? && p0 == PointOf(l, i, mid.before)
    requires slot == At(mid.before.now, i, mid.n) && Edge(off, p0.tot, |src|)
    ensures RoundStart(off, p0.tot, slot != 0)
  {
    if p0.tot == 0 && off % BSIZE != 0 {
      assert Data(mid.before) == [];
      FirstThere(l, s0, i, off, mid.before);
    }
    RoundStarts(off, p0.tot, |src|, slot != 0);
  }

  /** A bmap and the copy after it. */
  lemma CopiedPoint(l: Layout, s0: Fs, i: nat, off: nat, src: seq<Byte>, h: Steps, p: Point)
    requires Wrote(l, s0, i, off, h) && Ran(l, s0, i, off, src, h) && h.Copied? && p == PointOf(l, i, h.before)
    ensures h.before.Looked? && h.before.addr != 0 && Wrote(l, s0, i, off, h.before) &&
            Ran(l, s0, i, off, src, h.before)
    ensures p.tot < |src| &&
            PointOf(l, i, h) == Point(h, p.tot + RoundLen(off, p.tot, |src|), p.x, p.log + {h.before.addr})
  {
    RoundEdge(off, p.tot, |src|);
  }

  /** What each round is charged, latest last. */
  datatype Bill = Nothing | Item(before: Bill, tot: nat, bn: nat, x: nat, log: set<nat>, addr: nat, slot: nat,
                                 g: Growth)

  ghost predicate Billed(l: Layout, off: nat, n: nat, c: Bill, tot: nat, x0: nat, x: nat, log: set<nat>)
    decreases c
  {
    match c
    case Nothing => tot == 0 && x == x0 && log == {}
    case Item(before, tot1, bn, x1, log1, addr, slot, g) =>
      && Billed(l, off, n, before, tot1, x0, x1, log1) && tot1 < n
      && Charged(l, bn, x1, x, addr, slot, g) && (Edge(off, tot1, n) ==> RoundStart(off, tot1, slot != 0))
      && tot == (if addr == 0 then tot1 else tot1 + RoundLen(off, tot1, n))
      && log == log1 + GrowthLog(l, x, g) + if addr != 0 then {addr} else {}
  }

  lemma NoneLogged(l: Layout, x: nat, off: nat)
    requires NotBits(l, x)
    ensures Within(l, {}, x, x, {}, {}, off, 0)
  {
  }

  lemma {:induction false} RunBill(l: Layout, s0: Fs, i: nat, off: nat, src: seq<Byte>, p: Point, x0: nat)
    returns (c: Bill)
    requires Wrote(l, s0, i, off, p.h) && Ran(l, s0, i, off, src, p.h) && Stopped(p.h)
    requires p == PointOf(l, i, p.h) && x0 == Pointer(s0, i)
    ensures Billed(l, off, |src|, c, p.tot, x0, p.x, p.log)
    decreases p.h
  {
    if p.h.Begun? {
      c := Nothing;
    } else {
      var mid := if p.h.Looked? then p.h else p.h.before;
      if p.h.Copied? { CopiedPoint(l, s0, i, off, src, p.h, PointOf(l, i, mid)); }
      var p0, c1 := RoundBill(l, s0, i, off, src, mid);
      var c0 := RunBill(l, s0, i, off, src, p0, x0);
      c := c1.(before := c0);
    }
  }

  /** The charge for one round, without those before it. */
  lemma RoundBill(l: Layout, s0: Fs, i: nat, off: nat, src: seq<Byte>, mid: Steps) returns (p0: Point, c: Bill)
    requires Wrote(l, s0, i, off, mid) && Ran(l, s0, i, off, src, mid) && mid.Looked?
    ensures p0.h == mid.before && p0 == PointOf(l, i, p0.h) && Stopped(p0.h)
    ensures Wrote(l, s0, i, off, p0.h) && Ran(l, s0, i, off, src, p0.h) && p0.tot < |src|
    ensures c.Item? && c.tot == p0.tot && c.x == p0.x && c.log == p0.log && c.addr == mid.addr
    ensures Charged(l, c.bn, c.x, Pointer(mid.now, i), c.addr, c.slot, c.g)
    ensures Edge(off, c.tot, |src|) ==> RoundStart(off, c.tot, c.slot != 0)
    ensures PointOf(l, i, mid) == Point(mid, c.tot, Pointer(mid.now, i), c.log + GrowthLog(l, Pointer(mid.now, i), c.g))
  {
    p0 := PointOf(l, i, mid.before);
    var bn, slot := mid.n / BSIZE, At(mid.before.now, i, mid.n);
    LookedPoint(l, s0, i, off, src, mid, p0, bn, slot);
    if Edge(off, p0.tot, |src|) { StartPoint(l, s0, i, off, src, mid, p0, slot); }
    c := Item(Nothing, p0.tot, bn, p0.x, p0.log, mid.addr, slot, mid.g);
  }

  /** However far the loop has come, what it has logged is accounted for. */
  lemma {:induction false} BillBudget(l: Layout, off: nat, n: nat, c: Bill, tot: nat, x0: nat, x: nat, log: set<nat>)
    returns (d: set<nat>, b: set<nat>)
    requires Billed(l, off, n, c, tot, x0, x, log) && NotBits(l, x0)
    ensures tot <= n && Edge(off, tot, n) && Within(l, log, x0, x, d, b, off, tot)
    decreases c
  {
    match c
    case Nothing =>
      d, b := {}, {};
      NoneLogged(l, x0, off);
    case Item(before, tot1, bn, x1, log1, addr, slot, g) =>
      d, b := BillBudget(l, off, n, before, tot1, x0, x1, log1);
      d, b := RoundWithin(l, log1, log, x0, x1, x, d, b, off, tot1, tot, n, bn, addr, slot, g);
  }

  /** The loop's blocks apart: data blocks, bitmap blocks, and the indirect block x. */
  lemma RunParts(l: Layout, s0: Fs, i: nat, off: nat, src: seq<Byte>, h: Steps)
    returns (tot: nat, d: set<nat>, b: set<nat>, x: nat)
    requires Wrote(l, s0, i, off, h) && Ran(l, s0, i, off, src, h) && off + |src| <= MAXFILE * BSIZE
    ensures tot <= |src| && Within(l, LogOf(l, i, h), Pointer(s0, i), x, d, b, off, tot)
  {
    if Stopped(h) {
      tot, d, b, x := StoppedParts(l, s0, i, off, src, h);
    } else {
      var h' := WouldCopy(l, s0, i, off, src, h);
      tot, d, b, x := StoppedParts(l, s0, i, off, src, h');
    }
  }

  /** Where a fault stops the loop between the bmap and the end of the copy, the copy would log more. */
  lemma WouldCopy(l: Layout, s0: Fs, i: nat, off: nat, src: seq<Byte>, mid: Steps) returns (h': Steps)
    requires Wrote(l, s0, i, off, mid) && Ran(l, s0, i, off, src, mid) && !Stopped(mid)
    requires off + |src| <= MAXFILE * BSIZE
    ensures Wrote(l, s0, i, off, h') && Ran(l, s0, i, off, src, h') && Stopped(h')
    ensures LogOf(l, i, mid) <= LogOf(l, i, h')
  {
    var tot := |Data(mid)|;
    PieceFits(off, src, tot, mid.n);
    RoundMapped(l, s0, i, off, mid, mid.n / BSIZE);
    var chunk := Piece(off, src, tot);
    var s2 := mid.now.(disk := mid.now.disk[mid.addr := Overwrite(mid.now.disk[mid.addr], mid.n % BSIZE, chunk)]);
    RanData(l, s0, i, off, src, mid);
    RoundCopied(l, s0, i, off, src, mid, tot, chunk, s2);
    h' := Copied(mid, chunk, s2);
  }

  lemma PieceFits(off: nat, src: seq<Byte>, tot: nat, n: nat)
    requires tot < |src| && n == off + tot
    ensures var chunk := Piece(off, src, tot);
            |chunk| > 0 && n % BSIZE + |chunk| <= BSIZE && n + |chunk| <= off + |src|
  {
    RoundEdge(off, tot, |src|);
  }

  lemma {:induction false} RanData(l: Layout, s0: Fs, i: nat, off: nat, src: seq<Byte>, h: Steps)
    requires Ran(l, s0, i, off, src, h)
    ensures |Data(h)| <= |src| && Data(h) == src[..|Data(h)|]
    decreases h
  {
    match h
    case Begun(_) =>
    case Looked(before, _, _, _, _) => RanData(l, s0, i, off, src, before);
    case Copied(mid, chunk, _) =>
      RanData(l, s0, i, off, src, mid);
      RoundEdge(off, |Data(mid)|, |src|);
  }

  lemma StoppedParts(l: Layout, s0: Fs, i: nat, off: nat, src: seq<Byte>, h: Steps)
    returns (tot: nat, d: set<nat>, b: set<nat>, x: nat)
    requires Wrote(l, s0, i, off, h) && Ran(l, s0, i, off, src, h) && Stopped(h)
    ensures tot <= |src| && Within(l, LogOf(l, i, h), Pointer(s0, i), x, d, b, off, tot)
  {
    var p, x0 := PointOf(l, i, h), Pointer(s0, i);
    tot, x := p.tot, p.x;
    assert NotBits(l, x0) by {
      WroteStart(l, s0, i, off, h);
      DataInRange(l, s0, i, 0);
    }
    var c := RunBill(l, s0, i, off, src, p, x0);
    d, b := BillBudget(l, off, |src|, c, p.tot, x0, p.x, p.log);
  }

  lemma {:induction false} WroteStart(l: Layout, s0: Fs, i: nat, off: nat, h: Steps)
    requires Wrote(l, s0, i, off, h)
    ensures Good(l, s0) && i < |s0.ino|
    decreases h
  {
    match h
    case Begun(_) =>
    case Looked(before, _, _, _, _) => WroteStart(l, s0, i, off, before);
    case Copied(before, _, _) => WroteStart(l, s0, i, off, before);
  }

  /** What a write logs, also one that a fault stops, the inode's block included. */
  lemma RunCost(l: Layout, s0: Fs, i: nat, off: nat, src: seq<Byte>, h: Steps, log: set<nat>)
    requires Wrote(l, s0, i, off, h) && Ran(l, s0, i, off, src, h) && off + |src| <= MAXFILE * BSIZE &&
             log == LogOf(l, i, h) + {InodeBlock(l, i)}
    ensures |log| <= Cost(l, off, |src|)
  {
    var tot, d, b, x := RunParts(l, s0, i, off, src, h);
    WriteCost(l, LogOf(l, i, h), Pointer(s0, i), x, d, b, off, tot, |src|, InodeBlock(l, i));
  }

  // ---------------------------------------------------------------------------------------
  // The loop has one run only.

  lemma OneFirst(l: Layout, disk: Disk, b: nat, c: nat)
    requires Free(l, disk, b) && First(l, disk, b) && Free(l, disk, c) && First(l, disk, c)
    ensures b == c
  {
  }

  lemma GrewAddr(l: Layout, s: Fs, s1: Fs, i: nat, k: nat, b: nat)
    requires Grew(l, s, s1, i, AddedAddr(Same, k, b))
    ensures CanAddAddr(l, s, i, k, b) && s1 == AddAddr(l, s, i, k, b)
  {
    var s2 :| Grew(l, s, s2, i, Same) && CanAddAddr(l, s2, i, k, b) && s1 == AddAddr(l, s2, i, k, b);
  }

  lemma GrewEntry(l: Layout, s: Fs, s1: Fs, i: nat, j: nat, b: nat)
    requires Grew(l, s, s1, i, AddedEntry(Same, j, b))
    ensures CanAddEntry(l, s, i, j, b) && s1 == AddEntry(l, s, i, j, b)
  {
    var s2 :| Grew(l, s, s2, i, Same) && CanAddEntry(l, s2, i, j, b) && s1 == AddEntry(l, s2, i, j, b);
  }

  lemma GrewBoth(l: Layout, s: Fs, s2: Fs, i: nat, x: nat, j: nat, b: nat) returns (s1: Fs)
    requires Grew(l, s, s2, i, AddedEntry(AddedAddr(Same, NDIRECT, x), j, b))
    ensures CanAddAddr(l, s, i, NDIRECT, x) && s1 == AddAddr(l, s, i, NDIRECT, x)
    ensures CanAddEntry(l, s1, i, j, b) && s2 == AddEntry(l, s1, i, j, b)
  {
    s1 :| Grew(l, s, s1, i, AddedAddr(Same, NDIRECT, x)) && CanAddEntry(l, s1, i, j, b) &&
      s2 == AddEntry(l, s1, i, j, b);
    GrewAddr(l, s, s1, i, NDIRECT, x);
  }

  /** bmap has one outcome only. */
  lemma OneLook(l: Layout, s: Fs, i: nat, n: nat, addr: nat, g: Growth, s1: Fs, addr': nat, g': Growth, s1': Fs)
    requires Looks(l, s, i, n, addr, g, s1) && Looks(l, s, i, n, addr', g', s1') && addr != 0
    ensures addr' == addr && g' == g && s1' == s1
  {
    var bn := n / BSIZE;
    if At(s, i, n) != 0 {
    } else if bn < NDIRECT {
      OneDirectLook(l, s, i, n, bn, addr, g, s1, addr', g', s1');
    } else if Pointer(s, i) != 0 {
      OneEntryLook(l, s, i, n, bn, addr, g, s1, addr', g', s1');
    } else {
      OneFirstLook(l, s, i, n, bn, addr, g, s1, addr', g', s1');
    }
  }

  lemma OneDirectLook(l: Layout, s: Fs, i: nat, n: nat, bn: nat, addr: nat, g: Growth, s1: Fs, addr': nat, g': Growth,
                      s1': Fs)
    requires Looks(l, s, i, n, addr, g, s1) && Looks(l, s, i, n, addr', g', s1') && addr != 0
    requires bn == n / BSIZE && bn < NDIRECT && At(s, i, n) == 0
    ensures addr' == addr && g' == g && s1' == s1
  {
    GrewAddr(l, s, s1, i, bn, addr);
    assert addr' != 0;
    GrewAddr(l, s, s1', i, bn, addr');
    OneFirst(l, s.disk, addr, addr');
  }

  lemma OneEntryLook(l: Layout, s: Fs, i: nat, n: nat, bn: nat, addr: nat, g: Growth, s1: Fs, addr': nat, g': Growth,
                     s1': Fs)
    requires Looks(l, s, i, n, addr, g, s1) && Looks(l, s, i, n, addr', g', s1') && addr != 0
    requires bn == n / BSIZE && bn >= NDIRECT && At(s, i, n) == 0 && Pointer(s, i) != 0
    ensures addr' == addr && g' == g && s1' == s1
  {
    EntryLook(l, s, i, n, bn, addr, g, s1);
    if addr' != 0 { EntryLook(l, s, i, n, bn, addr', g', s1'); }
    OneFirst(l, s.disk, addr, addr');
  }

  lemma EntryLook(l: Layout, s: Fs, i: nat, n: nat, bn: nat, addr: nat, g: Growth, s1: Fs)
    requires Looks(l, s, i, n, addr, g, s1) && addr != 0 && bn == n / BSIZE && bn >= NDIRECT && At(s, i, n) == 0 &&
             Pointer(s, i) != 0
    ensures g == AddedEntry(Same, bn - NDIRECT, addr) && CanAddEntry(l, s, i, bn - NDIRECT, addr)
    ensures s1 == AddEntry(l, s, i, bn - NDIRECT, addr)
  {
    GrewEntry(l, s, s1, i, bn - NDIRECT, addr);
  }

  lemma OneFirstLook(l: Layout, s: Fs, i: nat, n: nat, bn: nat, addr: nat, g: Growth, s1: Fs, addr': nat, g': Growth,
                     s1': Fs)
    requires Looks(l, s, i, n, addr, g, s1) && Looks(l, s, i, n, addr', g', s1') && addr != 0
    requires bn == n / BSIZE && bn >= NDIRECT && At(s, i, n) == 0 && Pointer(s, i) == 0
    ensures addr' == addr && g' == g && s1' == s1
  {
    FirstNotFull(l, s, i, n, bn, addr, g, s1, addr', g', s1');
    var m := FirstLook(l, s, i, n, bn, addr, g, s1);
    var m' := FirstLook(l, s, i, n, bn, addr', g', s1');
    OneFirst(l, s.disk, Pointer(s1, i), Pointer(s1', i));
    OneFirst(l, m.disk, addr, addr');
  }

  /** A look that allocates the indirect block and an entry in it. */
  lemma FirstLook(l: Layout, s: Fs, i: nat, n: nat, bn: nat, addr: nat, g: Growth, s1: Fs) returns (m: Fs)
    requires Looks(l, s, i, n, addr, g, s1) && addr != 0
    requires bn == n / BSIZE && bn >= NDIRECT && At(s, i, n) == 0 && Pointer(s, i) == 0
    ensures var x := Pointer(s1, i);
            && CanAddAddr(l, s, i, NDIRECT, x) && m == AddAddr(l, s, i, NDIRECT, x)
            && CanAddEntry(l, m, i, bn - NDIRECT, addr) && s1 == AddEntry(l, m, i, bn - NDIRECT, addr)
            && g == AddedEntry(AddedAddr(Same, NDIRECT, x), bn - NDIRECT, addr)
  {
    m := GrewBoth(l, s, s1, i, Pointer(s1, i), bn - NDIRECT, addr);
  }

  /** If one look finds both blocks, no other finds the disk full between them. */
  lemma FirstNotFull(l: Layout, s: Fs, i: nat, n: nat, bn: nat, addr: nat, g: Growth, s1: Fs, addr': nat, g': Growth,
                     s1': Fs)
    requires Looks(l, s, i, n, addr, g, s1) && Looks(l, s, i, n, addr', g', s1') && addr != 0
    requires bn == n / BSIZE && bn >= NDIRECT && At(s, i, n) == 0 && Pointer(s, i) == 0
    ensures addr' != 0
  {
    var m := FirstLook(l, s, i, n, bn, addr, g, s1);
    if addr' == 0 {
      assert Pointer(s1', i) != 0;
      GrewAddr(l, s, s1', i, NDIRECT, Pointer(s1', i));
      OneFirst(l, s.disk, Pointer(s1, i), Pointer(s1', i));
      assert false;
    }
  }

  function Rounds(h: Steps): nat {
    match h
    case Begun(_) => 0
    case Looked(before, _, _, _, _) => Rounds(before)
    case Copied(before, _, _) => Rounds(before) + 1
  }

  lemma {:induction false} RanUnique(l: Layout, s0: Fs, i: nat, off: nat, src: seq<Byte>, h: Steps, h': Steps)
    requires Ran(l, s0, i, off, src, h) && Ran(l, s0, i, off, src, h') && !h.Looked? && !h'.Looked? &&
             Rounds(h) == Rounds(h')
    ensures h == h'
    decreases h
  {
    if h.Copied? {
      var mid, mid' := h.before, h'.before;
      RanUnique(l, s0, i, off, src, mid.before, mid'.before);
      OneLook(l, mid.before.now, i, mid.n, mid.addr, mid.g, mid.now, mid'.addr, mid'.g, mid'.now);
    }
  }

  /** The part of a run that has r rounds. */
  lemma {:induction false} RunPart(l: Layout, s0: Fs, i: nat, off: nat, src: seq<Byte>, h: Steps, r: nat)
    returns (mid: Steps)
    requires Ran(l, s0, i, off, src, h) && h.Copied? && r < Rounds(h)
    ensures mid.Looked? && mid.addr != 0 && Ran(l, s0, i, off, src, mid) && Rounds(mid.before) == r &&
            |Data(mid.before)| < |src|
    decreases h
  {
    LastMid(l, s0, i, off, src, h, h.before);
    if r == Rounds(h) - 1 { mid := h.before; } else { mid := RunPart(l, s0, i, off, src, h.before.before, r); }
  }

  lemma LastMid(l: Layout, s0: Fs, i: nat, off: nat, src: seq<Byte>, h: Steps, mid: Steps)
    requires Ran(l, s0, i, off, src, h) && h.Copied? && mid == h.before
    ensures mid.Looked? && mid.addr != 0 && Ran(l, s0, i, off, src, mid) && |Data(mid.before)| < |src|
    ensures Ran(l, s0, i, off, src, mid.before) && !mid.before.Looked? && Rounds(h) == Rounds(mid.before) + 1
  {
  }

  /** Where one run goes on, no run has stopped. */
  lemma NoEarlyStop(l: Layout, s0: Fs, i: nat, off: nat, src: seq<Byte>, mid: Steps, h': Steps, p: Steps)
    requires Ran(l, s0, i, off, src, mid) && mid.Looked? && mid.addr != 0 && |Data(mid.before)| < |src|
    requires Ran(l, s0, i, off, src, h') && p == if h'.Looked? then h'.before else h'
    requires Rounds(p) == Rounds(mid.before)
    ensures !Finished(h', src)
  {
    RanUnique(l, s0, i, off, src, p, mid.before);
    if h'.Looked? { OneLook(l, p.now, i, mid.n, mid.addr, mid.g, mid.now, h'.addr, h'.g, h'.now); }
  }

  /** A run that writes all of src is the only one. */
  lemma FinishedUnique(l: Layout, s0: Fs, i: nat, off: nat, src: seq<Byte>, h: Steps, h': Steps)
    requires Ran(l, s0, i, off, src, h) && !h.Looked? && Data(h) == src
    requires Ran(l, s0, i, off, src, h') && Finished(h', src)
    ensures h' == h
  {
    var p := if h'.Looked? then h'.before else h';
    if Rounds(p) < Rounds(h) {
      var mid := RunPart(l, s0, i, off, src, h, Rounds(p));
      NoEarlyStop(l, s0, i, off, src, mid, h', p);
    } else if Rounds(p) > Rounds(h) {
      var mid := RunPart(l, s0, i, off, src, p, Rounds(h));
      RanUnique(l, s0, i, off, src, h, mid.before);
    } else {
      RanUnique(l, s0, i, off, src, h, p);
    }
  }

  // ---------------------------------------------------------------------------------------
  // Nothing is changed that is not logged.

  /** Every block that differs is in the log. */
  ghost predicate Covered(d: Disk, d': Disk, log: set<nat>) {
    |d'| == |d| && forall b: nat | b < |d| && d'[b] != d[b] :: b in log
  }

  lemma CoveredMore(d0: Disk, d: Disk, d': Disk, log: set<nat>, log': set<nat>)
    requires Covered(d0, d, log) && Covered(d, d', log') && log <= log'
    ensures Covered(d0, d', log')
  {
  }

  lemma {:induction false} GrewCovered(l: Layout, s: Fs, s': Fs, i: nat, g: Growth, x: nat)
    requires Grew(l, s, s', i, g) && i < |s'.ino| && |s'.ino[i].addrs| == NDIRECT + 1
    requires s'.ino[i].addrs[NDIRECT] != 0 ==> x == s'.ino[i].addrs[NDIRECT]
    ensures Covered(s.disk, s'.disk, GrowthLog(l, x, g))
    decreases g
  {
    match g
    case Same =>
    case AddedAddr(before, k, b) =>
      var s1 :| Grew(l, s, s1, i, before) && CanAddAddr(l, s1, i, k, b) && s' == AddAddr(l, s1, i, k, b);
      GrewCovered(l, s, s1, i, before, x);
      TakenCovered(l, s.disk, s1.disk, b, GrowthLog(l, x, before), GrowthLog(l, x, g));
    case AddedEntry(before, j, b) =>
      var s1 :| Grew(l, s, s1, i, before) && CanAddEntry(l, s1, i, j, b) && s' == AddEntry(l, s1, i, j, b);
      GrewCovered(l, s, s1, i, before, x);
      LinkedCovered(l, s.disk, s1.disk, x, j, b, GrowthLog(l, x, before), GrowthLog(l, x, g));
  }

  lemma TakenCovered(l: Layout, d0: Disk, d: Disk, b: nat, log: set<nat>, log': set<nat>)
    requires Covered(d0, d, log) && BitBlock(l, b) < |d| && b < |d| && log' == log + {BitBlock(l, b), b}
    ensures Covered(d0, Taken(l, d, b), log')
  {
  }

  lemma LinkedCovered(l: Layout, d0: Disk, d: Disk, x: nat, j: nat, b: nat, log: set<nat>, log': set<nat>)
    requires Covered(d0, d, log) && BitBlock(l, b) < |d| && b < |d| && x < |d| && j < NINDIRECT && IsWord(b)
    requires log' == log + {BitBlock(l, b), b, x}
    ensures Covered(d0, Linked(l, d, x, j, b), log')
  {
  }

  /** A write logs every block that it changes, but for a round that a fault cuts short. */
  lemma {:induction false} RunCovered(l: Layout, s0: Fs, i: nat, off: nat, src: seq<Byte>, h: Steps)
    requires Ran(l, s0, i, off, src, h)
    ensures Covered(s0.disk, h.now.disk, LogOf(l, i, h))
    decreases h
  {
    match h
    case Begun(_) =>
    case Looked(before, n, addr, g, now) =>
      RunCovered(l, s0, i, off, src, before);
      GrewCovered(l, before.now, now, i, g, Pointer(now, i));
      CoveredMore(s0.disk, before.now.disk, now.disk, LogOf(l, i, before), LogOf(l, i, h));
    case Copied(mid, chunk, now) =>
      RunCovered(l, s0, i, off, src, mid);
      assert Covered(mid.now.disk, now.disk, {mid.addr});
      CoveredMore(s0.disk, mid.now.disk, now.disk, LogOf(l, i, mid), LogOf(l, i, h));
  }

  /** Every run of the loop keeps ownership, whatever the file's size. */
  lemma {:induction false} RanGood(l: Layout, s0: Fs, i: nat, off: nat, src: seq<Byte>, h: Steps)
    requires Ran(l, s0, i, off, src, h)
    ensures Good(l, h.now) && i < |h.now.ino|
    decreases h
  {
    match h
    case Begun(_) =>
    case Looked(before, _, _, g, now) =>
      RanGood(l, s0, i, off, src, before);
      GrewKeeps(l, before.now, now, i, g);
    case Copied(mid, chunk, now) =>
      RanGood(l, s0, i, off, src, mid);
      PutGood(l, mid.now, i, mid.n, chunk);
  }

  /** What is logged when the block of a slot is given back, if it has one. */
  ghost function GivenBack(l: Layout, b: nat): set<nat> { if b == 0 then {} else {BitBlock(l, b)} }

  /** The same for the slots from lo to hi. */
  ghost function SlotBits(l: Layout, disk: Disk, a: seq<nat>, lo: nat, hi: nat): set<nat>
    requires |a| == NDIRECT + 1 && hi <= NSLOTS
  {
    if hi <= lo then {} else SlotBits(l, disk, a, lo, hi - 1) + GivenBack(l, Slot(disk, a, hi - 1))
  }

  /** The blocks of the slots of a from lo to hi have been given back, and nothing else has been done, since
      the disk was d0 and the log log0. */
  ghost predicate Freed(l: Layout, d0: Disk, a: seq<nat>, lo: nat, hi: nat, log0: set<nat>, d: Disk, log: set<nat>) {
    && |a| == NDIRECT + 1 && hi <= NSLOTS
    && log == log0 + SlotBits(l, d0, a, lo, hi) && Covered(d0, d, SlotBits(l, d0, a, lo, hi))
  }

  lemma FreedMore(l: Layout, d0: Disk, a: seq<nat>, lo: nat, k: nat, log0: set<nat>, d: Disk, log: set<nat>, b: nat,
                  d': Disk, log': set<nat>)
    requires Freed(l, d0, a, lo, k, log0, d, log) && lo <= k < NSLOTS && b == Slot(d0, a, k)
    requires log' == log + GivenBack(l, b) && Covered(d, d', GivenBack(l, b))
    ensures Freed(l, d0, a, lo, k + 1, log0, d', log')
  {
  }

  lemma {:induction false} SlotsJoin(l: Layout, disk: Disk, a: seq<nat>, lo: nat, mid: nat, hi: nat)
    requires |a| == NDIRECT + 1 && lo <= mid <= hi <= NSLOTS
    ensures SlotBits(l, disk, a, lo, hi) == SlotBits(l, disk, a, lo, mid) + SlotBits(l, disk, a, mid, hi)
    decreases hi
  {
    if mid < hi { SlotsJoin(l, disk, a, lo, mid, hi - 1); }
  }

  lemma {:induction false} SlotsSame(l: Layout, d: Disk, a: seq<nat>, d': Disk, a': seq<nat>, lo: nat, hi: nat)
    requires |a| == NDIRECT + 1 == |a'| && hi <= NSLOTS && NDIRECT <= lo && |d'| == |d| && a'[NDIRECT] == a[NDIRECT]
    requires 0 != a[NDIRECT] < |d| ==> d'[a[NDIRECT]] == d[a[NDIRECT]]
    ensures SlotBits(l, d', a', lo, hi) == SlotBits(l, d, a, lo, hi)
    decreases hi
  {
    if lo < hi { SlotsSame(l, d, a, d', a', lo, hi - 1); }
  }

  /** Only bitmap blocks are changed. */
  lemma {:induction false} SlotsInBitmap(l: Layout, s: Fs, i: nat, lo: nat, hi: nat)
    requires Good(l, s) && i < |s.ino| && hi <= NSLOTS
    ensures forall b | b in SlotBits(l, s.disk, s.ino[i].addrs, lo, hi) :: l.bmapstart <= b < l.datastart
    decreases hi
  {
    if lo < hi {
      SlotsInBitmap(l, s, i, lo, hi - 1);
      SlotInRange(l, s.disk, s.ino, s.own, i, hi - 1);
    }
  }

  /** The blocks of a file. */
  ghost function BlocksOf(own: map<nat, Place>, i: nat): set<nat> { set b | b in own && own[b].i == i }

  /** The bitmap blocks of some blocks. */
  ghost function BitsOf(l: Layout, bs: set<nat>): set<nat> { set b | b in bs :: BitBlock(l, b) }

  lemma {:induction false} SlotOfBit(l: Layout, disk: Disk, a: seq<nat>, hi: nat, c: nat) returns (k: nat)
    requires |a| == NDIRECT + 1 && hi <= NSLOTS && c in SlotBits(l, disk, a, 0, hi)
    ensures k < hi && Slot(disk, a, k) != 0 && c == BitBlock(l, Slot(disk, a, k))
    decreases hi
  {
    if c in SlotBits(l, disk, a, 0, hi - 1) {
      k := SlotOfBit(l, disk, a, hi - 1, c);
    } else {
      k := hi - 1;
    }
  }

  lemma {:induction false} BitOfSlot(l: Layout, disk: Disk, a: seq<nat>, hi: nat, k: nat)
    requires |a| == NDIRECT + 1 && k < hi <= NSLOTS && Slot(disk, a, k) != 0
    ensures BitBlock(l, Slot(disk, a, k)) in SlotBits(l, disk, a, 0, hi)
    decreases hi
  {
    if k < hi - 1 { BitOfSlot(l, disk, a, hi - 1, k); }
  }

  /** The slots' blocks are the file's blocks. */
  lemma SlotsAreBlocks(l: Layout, s: Fs, i: nat)
    requires Good(l, s) && i < |s.ino|
    ensures SlotBits(l, s.disk, s.ino[i].addrs, 0, NSLOTS) == BitsOf(l, BlocksOf(s.own, i))
  {
    var a := s.ino[i].addrs;
    var bits := SlotBits(l, s.disk, a, 0, NSLOTS);
    forall c | c in bits ensures c in BitsOf(l, BlocksOf(s.own, i)) {
      var k := SlotOfBit(l, s.disk, a, NSLOTS, c);
      assert Slot(s.disk, a, k) in BlocksOf(s.own, i);
    }
    forall b | b in BlocksOf(s.own, i) ensures BitBlock(l, b) in bits {
      BitOfSlot(l, s.disk, a, NSLOTS, s.own[b].k);
    }
  }

  lemma IndirectFreed(l: Layout, s: Fs, i: nat, x: nat, log0: set<nat>, d: Disk, log: set<nat>, d': Disk,
                      log': set<nat>)
    requires Good(l, s) && i < |s.ino| && 0 != x == s.ino[i].addrs[NDIRECT]
    requires Freed(l, s.disk, s.ino[i].addrs, NDIRECT + 1, NSLOTS, log0, d, log)
    requires log' == log + {BitBlock(l, x)} && Covered(d, d', {BitBlock(l, x)})
    ensures Freed(l, s.disk, s.ino[i].addrs, NDIRECT, NSLOTS, log0, d', log')
  {
    var a := s.ino[i].addrs;
    SlotsJoin(l, s.disk, a, NDIRECT, NDIRECT + 1, NSLOTS);
    assert SlotBits(l, s.disk, a, NDIRECT, NDIRECT + 1) == {BitBlock(l, x)};
  }

  /** Without an indirect block the file has nothing in the slots that go through one. */
  lemma {:induction false} NoIndirect(l: Layout, disk: Disk, a: seq<nat>, hi: nat)
    requires |a| == NDIRECT + 1 && hi <= NSLOTS && a[NDIRECT] == 0
    ensures SlotBits(l, disk, a, NDIRECT, hi) == {}
    decreases hi
  {
    if NDIRECT < hi { NoIndirect(l, disk, a, hi - 1); }
  }

  /** The direct blocks, the others and the inode. */
  lemma AllFreed(l: Layout, s0: Fs, s1: Fs, i: nat, log0: set<nat>, log1: set<nat>, d: Disk, log: set<nat>, d': Disk,
                 log': set<nat>)
    requires Good(l, s0) && i < |s0.ino| == |s1.ino| && |s1.ino[i].addrs| == NDIRECT + 1
    requires s1.ino[i].addrs[NDIRECT] == s0.ino[i].addrs[NDIRECT]
    requires Freed(l, s0.disk, s0.ino[i].addrs, 0, NDIRECT, log0, s1.disk, log1)
    requires Freed(l, s1.disk, s1.ino[i].addrs, NDIRECT, NSLOTS, log1, d, log)
    requires Covered(d, d', {InodeBlock(l, i)}) && log' == log + {InodeBlock(l, i)}
    ensures log' == log0 + BitsOf(l, BlocksOf(s0.own, i)) + {InodeBlock(l, i)} && Covered(s0.disk, d', log')
  {
    var a, a1 := s0.ino[i].addrs, s1.ino[i].addrs;
    assert SlotBits(l, s1.disk, a1, NDIRECT, NSLOTS) == SlotBits(l, s0.disk, a, NDIRECT, NSLOTS) by {
      SlotsInBitmap(l, s0, i, 0, NDIRECT);
      SlotInRange(l, s0.disk, s0.ino, s0.own, i, NDIRECT);
      SlotsSame(l, s0.disk, a, s1.disk, a1, NDIRECT, NSLOTS);
    }
    SlotsJoin(l, s0.disk, a, 0, NDIRECT, NSLOTS);
    SlotsAreBlocks(l, s0, i);
  }
}
