/** Copying between the kernel and user memory (kernel/vm.c): what copyout does to the bytes of
    an address space, and what copyin reads. */
module UserCopy {
  import opened Common
  import opened PageTable
  import opened AddressSpace

  /** Bytes src put at address dst, in a page whose first byte has address base. */
  ghost function Patch(c: seq<Byte>, base: nat, dst: nat, src: seq<Byte>): (r: seq<Byte>)
    ensures |r| == |c|
    ensures forall o | 0 <= o < |c| :: r[o] == if dst <= base + o < dst + |src| then src[base + o - dst] else c[o]
  {
    seq(|c|, o requires 0 <= o < |c| => if dst <= base + o < dst + |src| then src[base + o - dst] else c[o])
  }

  /** The address space r with src at dst; the others as they are. */
  ghost function Patched(a: View, r: nat, dst: nat, src: seq<Byte>): View {
    a.(page := map k | k in a.page :: if k.r == r then Patch(a.page[k], PGSIZE * k.v, dst, src) else a.page[k])
  }

  ghost function ByteAt(a: View, r: nat, x: nat): Byte {
    var k := Key(r, x / PGSIZE);
    if k in a.page && x % PGSIZE < |a.page[k]| then a.page[k][x % PGSIZE] else 0
  }

  /** n bytes from address x on. */
  ghost function Bytes(a: View, r: nat, x: nat, n: nat): (s: seq<Byte>)
    ensures |s| == n && forall i | 0 <= i < n :: s[i] == ByteAt(a, r, x + i)
  {
    if n == 0 then [] else Bytes(a, r, x, n - 1) + [ByteAt(a, r, x + n - 1)]
  }

  ghost predicate HasPage(a: View, r: nat, x: nat) { Key(r, x / PGSIZE) in a.page }

  ghost predicate WholePages(a: View) { forall k | k in a.page :: |a.page[k]| == PGSIZE }

  /** What was copied out is what is copied in. */
  lemma CopyRoundTrip(a: View, r: nat, dst: nat, src: seq<Byte>)
    requires WholePages(a) && forall x | dst <= x < dst + |src| :: HasPage(a, r, x)
    ensures Bytes(Patched(a, r, dst, src), r, dst, |src|) == src
  {
    forall i | 0 <= i < |src| ensures ByteAt(Patched(a, r, dst, src), r, dst + i) == src[i] {
      assert HasPage(a, r, dst + i);
      Split(dst + i);
    }
  }

  lemma Split(x: nat)
    ensures PGSIZE * (x / PGSIZE) + x % PGSIZE == x
  {
  }

  /** Bytes outside the range, and other address spaces, keep theirs. */
  lemma CopyFrame(a: View, r: nat, dst: nat, src: seq<Byte>, r': nat, x: nat)
    requires r' != r || !(dst <= x < dst + |src|)
    ensures ByteAt(Patched(a, r, dst, src), r', x) == ByteAt(a, r', x)
  {
    Split(x);
  }

  function Overwritten(c: seq<Byte>, lo: nat, chunk: seq<Byte>): seq<Byte>
    requires lo + |chunk| <= |c|
  {
    c[..lo] + chunk + c[lo + |chunk|..]
  }

  /** One round of copyout's loop: a chunk that fits the rest of its page. */
  lemma PatchMore(a: View, b: View, r: nat, dst: nat, src: seq<Byte>, tot: nat, m: nat, k: Key)
    requires tot + m <= |src| && (dst + tot) % PGSIZE + m <= PGSIZE && HasPage(a, r, dst + tot) && WholePages(a)
    requires b == Patched(a, r, dst, src[..tot]) && k == Key(r, (dst + tot) / PGSIZE)
    ensures k in b.page && |b.page[k]| == PGSIZE
    ensures Patched(a, r, dst, src[..tot + m])
         == b.(page := b.page[k := Overwritten(b.page[k], (dst + tot) % PGSIZE, src[tot..tot + m])])
  {
    var c := Patched(a, r, dst, src[..tot + m]);
    Split(dst + tot);
    var page := Overwritten(b.page[k], (dst + tot) % PGSIZE, src[tot..tot + m]);
    assert c.page[k] == page;
    forall k' | k' in a.page && k' != k ensures c.page[k'] == b.page[k'] {
      if k'.r == r { OtherPage(a.page[k'], k'.v, dst, src, tot, m); }
    }
    assert c.page == b.page[k := page];
  }

  lemma OtherPage(c: seq<Byte>, v: nat, dst: nat, src: seq<Byte>, tot: nat, m: nat)
    requires tot + m <= |src| && (dst + tot) % PGSIZE + m <= PGSIZE && v != (dst + tot) / PGSIZE && |c| <= PGSIZE
    ensures Patch(c, PGSIZE * v, dst, src[..tot + m]) == Patch(c, PGSIZE * v, dst, src[..tot])
  {
    Split(dst + tot);
  }

  /** User-accessible pages are the address space's own. */
  ghost predicate UserOwned(a: View, r: nat) {
    forall k | k in a.leaf && k.r == r && IsUser(a.leaf[k]) :: k in a.page
  }

  /** Address x can be accessed by the user: what walkaddr looks for. */
  ghost predicate UserAt(a: View, r: nat, x: nat) {
    x / PGSIZE < MAXVPN && Key(r, x / PGSIZE) in a.leaf && IsUser(a.leaf[Key(r, x / PGSIZE)])
  }

  ghost predicate UserRange(a: View, r: nat, x: nat, n: nat) {
    forall y | x <= y < x + n :: UserAt(a, r, y)
  }

  lemma PatchedNothing(a: View, r: nat, dst: nat)
    ensures Patched(a, r, dst, []) == a
  {
    var b := Patched(a, r, dst, []);
    assert forall k | k in a.page :: b.page[k] == a.page[k];
    assert b.page == a.page;
  }

  /** Copying out changes neither what is accessible nor what is owned. */
  lemma PatchedKeeps(a: View, b: View, r: nat, dst: nat, src: seq<Byte>, x: nat)
    requires WholePages(a) && UserOwned(a, r) && b == Patched(a, r, dst, src)
    ensures b.roots == a.roots && UserAt(b, r, x) == UserAt(a, r, x) &&
            (UserAt(a, r, x) ==> HasPage(a, r, x) && HasPage(b, r, x))
  {
  }

  /** How much of n bytes at x goes into the page of x. */
  method InPage(x: nat, n: nat) returns (off: nat, m: nat)
    requires n > 0
    ensures off == x % PGSIZE && 0 < m <= n && off + m <= PGSIZE
  {
    off := x % PGSIZE;
    m := if PGSIZE - off > n then n else PGSIZE - off;
  }

  /** A round reaches the end of its page or of the range. */
  lemma SamePage(x: nat, y: nat)
    requires x <= y && x % PGSIZE + (y - x) < PGSIZE
    ensures y / PGSIZE == x / PGSIZE && y % PGSIZE == x % PGSIZE + (y - x)
  {
  }

  lemma RangeMore(a: View, r: nat, x: nat, tot: nat, m: nat)
    requires UserRange(a, r, x, tot) && UserAt(a, r, x + tot) && (x + tot) % PGSIZE + m <= PGSIZE
    ensures UserRange(a, r, x, tot + m)
  {
    forall y | x <= y < x + (tot + m) ensures UserAt(a, r, y) {
      if y >= x + tot { SamePage(x + tot, y); }
    }
  }

  /** What copyin takes from one page. */
  lemma BytesMore(a: View, r: nat, x: nat, tot: nat, m: nat)
    requires (x + tot) % PGSIZE + m <= PGSIZE && HasPage(a, r, x + tot) && WholePages(a)
    ensures var c, lo := a.page[Key(r, (x + tot) / PGSIZE)], (x + tot) % PGSIZE;
            |c| == PGSIZE && Bytes(a, r, x, tot + m) == Bytes(a, r, x, tot) + c[lo..lo + m]
  {
    var c, lo := a.page[Key(r, (x + tot) / PGSIZE)], (x + tot) % PGSIZE;
    var one, two := Bytes(a, r, x, tot + m), Bytes(a, r, x, tot) + c[lo..lo + m];
    forall i | 0 <= i < tot + m ensures one[i] == two[i] {
      if i >= tot { SamePage(x + tot, x + i); }
    }
  }
}
