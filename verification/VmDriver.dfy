/** The virtual-memory code (kernel/vm.c, kernel/kalloc.c, and the address-space functions of
    kernel/proc.c) over the pages of the machine.

    Addresses are given by page: v is a virtual page number, p a physical one.  The ghost field
    `view` is the map that the page tables refine. */
module VmDriver {
  import opened Common
  import opened PageTable
  import opened AddressSpace
  import opened UserCopy

  ghost function PageRange(lo: nat, n: nat): (r: set<nat>)
    ensures |r| == n && forall p :: p in r <==> lo <= p < lo + n
  {
    if n == 0 then {} else PageRange(lo, n - 1) + {lo + n - 1}
  }

  /** The first n virtual pages from v on, of page table r. */
  ghost function Keys(r: nat, v: nat, n: nat): (s: set<Key>)
    ensures forall k :: k in s <==> k.r == r && v <= k.v < v + n
  {
    if n == 0 then {} else Keys(r, v, n - 1) + {Key(r, v + n - 1)}
  }

  lemma PushDistinct(s: seq<nat>, p: nat)
    requires Distinct(s) && p !in s
    ensures Distinct([p] + s) && forall q :: q in [p] + s <==> q == p || q in s
  {
    var t := [p] + s;
    forall i, j | 0 <= i < j < |t| ensures t[i] != t[j] {
      assert t[j] == s[j - 1] && (i > 0 ==> t[i] == s[i - 1]);
    }
  }

  /** PGROUNDUP(sz) / PGSIZE: the least number of pages that hold sz bytes. */
  function PagesIn(sz: nat): (n: nat)
    ensures sz <= PGSIZE * n < sz + PGSIZE
  {
    (sz + PGSIZE - 1) / PGSIZE
  }

  /** What uvmalloc's callers ask for beyond R and U. */
  predicate IsXperm(x: Perm) { x == 0 || x == PTE_W || x == PTE_X || x == PTE_W + PTE_X }

  function UserPerm(x: Perm): (r: Perm)
    requires IsXperm(x)
    ensures IsLeaf(r) && IsUser(r) && CanRead(r) && (CanWrite(r) <==> CanWrite(x)) && (CanRun(r) <==> CanRun(x))
  {
    PTE_R + PTE_U + x
  }

  function ZeroPage(): (r: seq<Byte>)
    ensures |r| == PGSIZE && forall i | 0 <= i < PGSIZE :: r[i] == 0
  {
    seq(PGSIZE, _ => 0)
  }

  /** Pages ps, all with the same contents and permissions. */
  ghost function Alike(ps: seq<nat>, content: seq<Byte>, perm: Perm): (r: seq<New>)
    ensures |r| == |ps| && forall i | 0 <= i < |ps| :: r[i] == New(ps[i], content, perm)
  {
    if ps == [] then [] else Alike(ps[..|ps| - 1], content, perm) + [New(ps[|ps| - 1], content, perm)]
  }

  lemma AlikeMore(a: View, b: View, r: nat, v: nat, ps: seq<nat>, p: nat, content: seq<Byte>, perm: Perm, k: Key)
    requires b == With(a, r, v, Alike(ps, content, perm)) && k == Key(r, v + |ps|)
    ensures With(a, r, v, Alike(ps + [p], content, perm)) == Mapped(b, k, p, perm, content)
  {
    assert (ps + [p])[..|ps|] == ps;
    WithOneMore(a, r, v, Alike(ps, content, perm), New(p, content, perm));
  }

  lemma GrownMapped(a: View, r: nat, n: nat, news: seq<New>)
    ensures AllMapped(With(a, r, n, news), r, n, |news|, true)
  {
    forall k | k in Keys(r, n, |news|) ensures k in With(a, r, n, news).leaf && k in With(a, r, n, news).page {
      WithAt(a, r, n, news, k);
    }
  }

  lemma PagesMonotone(a: nat, b: nat)
    requires a <= b
    ensures PagesIn(a) <= PagesIn(b)
  {
  }

  lemma WithoutNone(a: View)
    ensures Without(a, {}) == a
  {
  }

  /** Copies, in pages ps, of the first pages of address space r. */
  ghost function Copies(a: View, r: nat, ps: seq<nat>): (s: seq<New>)
    requires Copyable(a, r, |ps|)
    ensures |s| == |ps|
    ensures forall i | 0 <= i < |ps| :: s[i] == New(ps[i], a.page[Key(r, i)], Flags(a.leaf[Key(r, i)]))
  {
    if ps == [] then []
    else var n := |ps| - 1; Copies(a, r, ps[..n]) + [New(ps[n], a.page[Key(r, n)], Flags(a.leaf[Key(r, n)]))]
  }

  ghost predicate Copyable(a: View, r: nat, n: nat) {
    forall i: nat | i < n :: Key(r, i) in a.page && Key(r, i) in a.leaf
  }

  lemma CopiesMore(a: View, r: nat, child: nat, ps: seq<nat>, p: nat)
    requires Copyable(a, r, |ps| + 1)
    ensures With(a, child, 0, Copies(a, r, ps + [p]))
         == Mapped(With(a, child, 0, Copies(a, r, ps)), Key(child, |ps|), p, Flags(a.leaf[Key(r, |ps|)]),
           a.page[Key(r, |ps|)])
  {
    assert (ps + [p])[..|ps|] == ps;
    WithOneMore(a, child, 0, Copies(a, r, ps), New(p, a.page[Key(r, |ps|)], Flags(a.leaf[Key(r, |ps|)])));
  }

  /** The parent's pages are as they were while copies are added to the child. */
  lemma CopiesElsewhere(a: View, parent: nat, n: nat, child: nat, ps: seq<nat>, v: nat)
    requires Copyable(a, parent, n) && parent != child && |ps| <= n && v < n
    ensures var b, k := With(a, child, 0, Copies(a, parent, ps)), Key(parent, v);
            b.roots == a.roots && k in b.page && b.page[k] == a.page[k] && k in b.leaf && b.leaf[k] == a.leaf[k]
  {
    WithAt(a, child, 0, Copies(a, parent, ps), Key(parent, v));
  }

  // ---------------------------------------------------------------------------------------
  // The same, address by address.

  /** The flags of the page of address x, but for V. */
  ghost function Allowed(a: View, r: nat, x: nat): nat {
    if Key(r, x / PGSIZE) in a.leaf then Flags(a.leaf[Key(r, x / PGSIZE)]) / 2 else 0
  }

  /** The first sz addresses of r' in b are as those of r in a. */
  ghost predicate Twin(a: View, r: nat, b: View, r': nat, sz: nat) {
    forall x: nat | x < sz ::
      HasPage(b, r', x) && ByteAt(b, r', x) == ByteAt(a, r, x) && Allowed(b, r', x) == Allowed(a, r, x)
  }

  /** The addresses from lo to hi hold zero, for the user to read, and to write or run as x says. */
  ghost predicate Zeroed(a: View, r: nat, lo: nat, hi: nat, x: Perm)
    requires IsXperm(x)
  {
    forall y: nat | lo <= y < hi :: UserAt(a, r, y) && HasPage(a, r, y) && ByteAt(a, r, y) == 0 &&
                                    Allowed(a, r, y) == UserPerm(x) / 2
  }

  /** No address from lo to hi is there. */
  ghost predicate Unbacked(a: View, r: nat, lo: nat, hi: nat) {
    forall y: nat | lo <= y < hi :: !HasPage(a, r, y) && !UserAt(a, r, y)
  }

  lemma PageBelow(x: nat, sz: nat)
    ensures x < sz ==> x / PGSIZE < PagesIn(sz)
    ensures x < PGSIZE * PagesIn(sz) <==> x / PGSIZE < PagesIn(sz)
  {
    Split(x);
  }

  /** An address on a new page. */
  lemma NewByte(a: View, b: View, r: nat, n: nat, ps: seq<nat>, perm: Perm, y: nat, v: nat)
    requires b == With(a, r, n, Alike(ps, ZeroPage(), perm)) && v == y / PGSIZE && n <= v < n + |ps| <= MAXVPN
    ensures HasPage(b, r, y) && ByteAt(b, r, y) == 0 && Allowed(b, r, y) == perm / 2
    ensures IsUser(perm) ==> UserAt(b, r, y)
  {
    WithAt(a, r, n, Alike(ps, ZeroPage(), perm), Key(r, v));
    MadePte(ps[v - n], perm);
  }

  lemma NewBytes(a: View, b: View, r: nat, n: nat, newsz: nat, ps: seq<nat>, x: Perm)
    requires IsXperm(x) && n + |ps| == PagesIn(newsz) <= MAXVPN
    requires b == With(a, r, n, Alike(ps, ZeroPage(), UserPerm(x)))
    ensures Zeroed(b, r, PGSIZE * n, newsz, x)
  {
    forall y: nat | PGSIZE * n <= y < newsz
      ensures UserAt(b, r, y) && HasPage(b, r, y) && ByteAt(b, r, y) == 0 && Allowed(b, r, y) == UserPerm(x) / 2
    {
      PageBelow(y, newsz);
      Split(y);
      NewByte(a, b, r, n, ps, UserPerm(x), y, y / PGSIZE);
    }
  }

  lemma GrownBytes(a: View, b: View, r: nat, oldsz: nat, news: seq<New>)
    requires Space(a, r, PagesIn(oldsz)) && b == With(a, r, PagesIn(oldsz), news)
    ensures Twin(a, r, b, r, oldsz)
  {
    forall y: nat | y < oldsz
      ensures HasPage(b, r, y) && ByteAt(b, r, y) == ByteAt(a, r, y) && Allowed(b, r, y) == Allowed(a, r, y)
    {
      PageBelow(y, oldsz);
      WithAt(a, r, PagesIn(oldsz), news, Key(r, y / PGSIZE));
    }
  }

  lemma ShrunkBytes(a: View, b: View, r: nat, oldsz: nat, newsz: nat)
    requires Space(a, r, PagesIn(oldsz)) && newsz <= oldsz
    requires b == Without(a, Keys(r, PagesIn(newsz), PagesIn(oldsz) - PagesIn(newsz)))
    ensures Twin(a, r, b, r, newsz) && Unbacked(b, r, PGSIZE * PagesIn(newsz), oldsz)
  {
    forall y: nat | y < newsz
      ensures HasPage(b, r, y) && ByteAt(b, r, y) == ByteAt(a, r, y) && Allowed(b, r, y) == Allowed(a, r, y)
    {
      PageBelow(y, newsz);
    }
    forall y: nat | PGSIZE * PagesIn(newsz) <= y < oldsz ensures !HasPage(b, r, y) && !UserAt(b, r, y) {
      PageBelow(y, newsz);
      PageBelow(y, oldsz);
    }
  }

  lemma CopiedBytes(a: View, b: View, parent: nat, child: nat, sz: nat, ps: seq<nat>)
    requires Copyable(a, parent, |ps|) && |ps| == PagesIn(sz) && b == With(a, child, 0, Copies(a, parent, ps))
    ensures Twin(a, parent, b, child, sz)
  {
    forall y: nat | y < sz
      ensures HasPage(b, child, y) && ByteAt(b, child, y) == ByteAt(a, parent, y)
      ensures Allowed(b, child, y) == Allowed(a, parent, y)
    {
      PageBelow(y, sz);
      WithAt(a, child, 0, Copies(a, parent, ps), Key(child, y / PGSIZE));
      MadePte(ps[y / PGSIZE], Flags(a.leaf[Key(parent, y / PGSIZE)]));
    }
  }

  /** No translations at all. */
  ghost predicate Empty(a: View, r: nat) { forall k: Key | k.r == r :: k !in a.leaf && k !in a.page }

  ghost predicate OnlyUser(a: View, r: nat, n: nat) { forall k | k in a.leaf && k.r == r :: k.v < n }

  /** The map without page table r, which had n user pages. */
  ghost function Gone(a: View, r: nat, n: nat): View {
    var b := Without(a, Keys(r, 0, n));
    b.(roots := b.roots - {r})
  }

  lemma SpaceMapped(a: View, r: nat, n: nat)
    requires Space(a, r, n)
    ensures AllMapped(a, r, 0, n, true)
  {
  }

  lemma UserGone(a: View, r: nat, n: nat)
    requires OnlyUser(a, r, n)
    ensures NoLeaves(Without(a, Keys(r, 0, n)), r)
  {
  }

  const TRAMPOLINE := MAXVPN - 1
  const TRAPFRAME := MAXVPN - 2

  /** The address space of a process with n user pages. */
  ghost predicate ProcSpace(a: View, r: nat, n: nat) {
    Space(a, r, n) && Key(r, TRAMPOLINE) in a.leaf && Key(r, TRAPFRAME) in a.leaf
  }

  ghost function WithProc(a: View, r: nat, trampoline: nat, trapframe: nat): View {
    a.(roots := a.roots + {r},
       leaf := a.leaf[Key(r, TRAMPOLINE) := MakePte(trampoline, PTE_R + PTE_X)]
                     [Key(r, TRAPFRAME) := MakePte(trapframe, PTE_R + PTE_W)])
  }

  lemma ProcSpaceNew(a: View, b: View, r: nat, trampoline: nat, trapframe: nat)
    requires Empty(a, r) && b == WithProc(a, r, trampoline, trapframe)
    ensures ProcSpace(b, r, 0)
  {
  }

  /** Neither page is the user's. */
  lemma ProcNotUser(a: View, b: View, r: nat, trampoline: nat, trapframe: nat)
    requires Empty(a, r) && b == WithProc(a, r, trampoline, trapframe)
    ensures forall x: nat :: !UserAt(b, r, x)
  {
    MadePte(trampoline, PTE_R + PTE_X);
    MadePte(trapframe, PTE_R + PTE_W);
  }

  ghost function ProcGone(a: View, r: nat, n: nat): View {
    Gone(Without(Without(a, Keys(r, TRAMPOLINE, 1)), Keys(r, TRAPFRAME, 1)), r, n)
  }

  lemma EmptySpace(a: View, r: nat)
    requires r in a.roots && Empty(a, r)
    ensures Space(a, r, PagesIn(0)) && OnlyUser(a, r, PagesIn(0))
  {
  }

  lemma GoneEmpty(a: View, b: View, r: nat)
    requires r !in a.roots && b == a.(roots := a.roots + {r})
    ensures Gone(b, r, PagesIn(0)) == a
  {
    assert b.roots - {r} == a.roots;
    WithoutNone(b);
  }

  lemma MappedUnmapped(a: View, k: Key, e: nat)
    requires k !in a.leaf && k !in a.page
    ensures Without(a.(leaf := a.leaf[k := e]), Keys(k.r, k.v, 1)) == a
  {
    assert Keys(k.r, k.v, 1) == {k};
    assert a.leaf[k := e] - {k} == a.leaf && a.page - {k} == a.page;
  }

  lemma ProcUnmapped(a: View, r: nat, n: nat)
    requires ProcSpace(a, r, n)
    ensures var b := Without(Without(a, Keys(r, TRAMPOLINE, 1)), Keys(r, TRAPFRAME, 1));
            Space(b, r, n) && OnlyUser(b, r, n)
  {
  }

  ghost predicate AllMapped(a: View, r: nat, v: nat, n: nat, doFree: bool) {
    forall k | k in Keys(r, v, n) :: k in a.leaf && doFree == (k in a.page)
  }

  lemma StillMapped(a: View, r: nat, v: nat, n: nat, doFree: bool, i: nat)
    requires AllMapped(a, r, v, n, doFree) && i < n
    ensures Key(r, v + i) in Without(a, Keys(r, v, i)).leaf &&
            doFree == (Key(r, v + i) in Without(a, Keys(r, v, i)).page)
  {
    assert Key(r, v + i) in Keys(r, v, n);
  }

  lemma WithoutMore(a: View, r: nat, v: nat, n: nat)
    ensures Without(Without(a, Keys(r, v, n)), {Key(r, v + n)}) == Without(a, Keys(r, v, n + 1))
  {
  }

  class Vm {
    const lo: nat
    const npages: nat
    var freelist: seq<nat>                // kmem.freelist, linked through the pages
    var ptes: map<nat, seq<nat>>          // pages that are page tables
    var bytes: map<nat, seq<Byte>>        // pages that hold user memory

    ghost var own: map<nat, Place>
    ghost var at: map<Place, nat>
    ghost var held: set<nat>
    ghost var view: View
    ghost var trace: Trace

    ghost function Abs(): Sys
      reads this
    {
      Sys(Mem(freelist, ptes, bytes, own, at, held), view)
    }

    ghost predicate Valid()
      reads this
    {
      Reached(PageRange(lo, npages), trace, Abs())
    }

    /** kinit: freerange gives every page of the range to the allocator. */
    constructor (lo: nat, npages: nat)
      ensures Valid() && this.lo == lo && this.npages == npages && view == View({}, map[], map[]) && held == {}
    {
      this.lo, this.npages := lo, npages;
      var free: seq<nat> := [];
      var p := lo;
      while p < lo + npages
        invariant lo <= p <= lo + npages && Distinct(free) && forall q :: q in free <==> lo <= q < p
      {
        PushDistinct(free, p);
        free := [p] + free;
        p := p + 1;
      }
      freelist, ptes, bytes := free, map[], map[];
      own, at, held, view, trace := map[], map[], {}, View({}, map[], map[]), Start;
    }

    /** Records that the state has just been changed by step e. */
    ghost method Record(s: Sys, e: Event)
      requires Reached(PageRange(lo, npages), trace, s) && Enabled(s, e) && Abs() == Next(s, e)
      modifies this`trace
      ensures Valid()
    {
      trace := Then(trace, e);
    }

    /** kalloc. */
    method Kalloc() returns (ok: bool, p: nat)
      requires Valid()
      modifies this`freelist, this`held, this`trace
      ensures Valid()
      ensures ok ==>
                old(freelist) == [p] + freelist && held == old(held) + {p} && p !in old(held) && lo <= p < lo + npages
      ensures !ok ==> freelist == [] && old(freelist) == [] && held == old(held)
    {
      ok, p := false, 0;
      if freelist != [] {
        ghost var s := Abs();
        FreeShape(PageRange(lo, npages), trace, s);
        ok, p := true, freelist[0];
        freelist := freelist[1..];
        held := held + {p};
        Record(s, Alloc);
      }
    }

    /** kfree; its panic is excluded, since the page is one of the machine's. */
    method Kfree(p: nat)
      requires Valid() && p in held
      modifies this`freelist, this`held, this`trace
      ensures Valid() && freelist == [p] + old(freelist) && held == old(held) - {p}
    {
      ghost var s := Abs();
      HeldShape(PageRange(lo, npages), trace, s, p);
      assert lo <= p < lo + npages;
      freelist := [p] + freelist;
      held := held - {p};
      Record(s, Free(p));
    }

    /** memset or memmove into a page that is not mapped yet. */
    method Fill(p: nat, content: seq<Byte>)
      requires Valid() && p in held && |content| == PGSIZE
      modifies this`bytes, this`trace
      ensures Valid() && bytes == old(bytes)[p := content]
    {
      ghost var s := Abs();
      bytes := bytes[p := content];
      Record(s, Event.Fill(p, content));
    }

    /** A new table, empty, with its parent's entry leading to it. */
    method PlaceTable(r: nat, v: nat, level: nat, pt: nat, p: nat)
      requires Valid() && 1 <= level <= 2 && v < MAXVPN && p in held
      requires At(r, level + 1, v) in at && at[At(r, level + 1, v)] == pt && At(r, level, v) !in at
      modifies this`ptes, this`own, this`at, this`held, this`trace
      ensures Valid() && held == old(held) - {p} && at == old(at)[At(r, level, v) := p]
    {
      ghost var s, pl := Abs(), At(r, level, v);
      TableShape(PageRange(lo, npages), trace, s, r, v, level, p);
      ptes := ptes[pt := EntrySet(ptes[pt], Idx(v, level) % ENTRIES, MakePte(p, 0))];
      ptes := ptes[p := NoEntries()];
      own, at, held := own[p := pl], at[pl := p], held - {p};
      Record(s, Table(pl, p));
    }

    /** walk's step when there is no table yet: a new one, if there is a page for it. */
    method AddTable(r: nat, v: nat, level: nat, pt: nat) returns (ok: bool, p: nat)
      requires Valid() && 1 <= level <= 2 && v < MAXVPN
      requires At(r, level + 1, v) in at && at[At(r, level + 1, v)] == pt && At(r, level, v) !in at
      modifies this`freelist, this`ptes, this`own, this`at, this`held, this`trace
      ensures Valid() && held == old(held)
      ensures ok ==> At(r, level, v) in at && at[At(r, level, v)] == p
      ensures !ok ==> freelist == []
    {
      ok, p := Kalloc();
      if ok { PlaceTable(r, v, level, pt, p); }
    }

    /** walk: the page of the last-level table for v, made if need be and if alloc says so.  No
        translation changes. */
    method Walk(r: nat, v: nat, alloc: bool) returns (ok: bool, pt: nat)
      requires Valid() && r in view.roots && v < MAXVPN
      modifies this`freelist, this`ptes, this`own, this`at, this`held, this`trace
      ensures Valid() && held == old(held)
      ensures ok ==> At(r, 1, v) in at && at[At(r, 1, v)] == pt
      ensures !alloc ==> ok == (At(r, 1, v) in old(at)) && Abs() == old(Abs())
      ensures alloc && !ok ==> freelist == []
    {
      RootShape(PageRange(lo, npages), trace, Abs(), r);
      Levels(r, v);
      pt := r;
      var level := 2;
      while level > 0
        invariant Valid() && held == old(held) && level <= 2 && At(r, level + 1, v) in at &&
                  at[At(r, level + 1, v)] == pt
        invariant !alloc ==> Abs() == old(Abs())
      {
        StepDown(PageRange(lo, npages), trace, Abs(), r, v, level, pt);
        TableAbove(PageRange(lo, npages), trace, Abs(), r, v);
        var e := ptes[pt][Idx(v, level) % ENTRIES];
        if IsValid(e) {
          pt := Ppn(e);
        } else {
          if !alloc { return false, pt; }
          ok, pt := AddTable(r, v, level, pt);
          if !ok { return false, pt; }
        }
        level := level - 1;
      }
      ok := true;
    }

    /** The last-level entry for v, in table pt, set for a page that becomes the table's own. */
    method SetOwn(r: nat, v: nat, pt: nat, p: nat, perm: Perm)
      requires Valid() && Key(r, v) !in view.leaf && IsLeaf(perm) && At(r, 1, v) in at && at[At(r, 1, v)] == pt
      requires p in held && p in bytes && |bytes[p]| == PGSIZE
      modifies this`ptes, this`own, this`at, this`held, this`view, this`trace
      ensures Valid() && held == old(held) - {p} && view == Mapped(old(view), Key(r, v), p, perm, bytes[p])
    {
      ghost var s, k := Abs(), Key(r, v);
      LeafShape(PageRange(lo, npages), trace, s, k);
      PageShape(PageRange(lo, npages), trace, s, k);
      assert !IsValid(ptes[pt][v % ENTRIES]);
      ptes := ptes[pt := EntrySet(ptes[pt], v % ENTRIES, MakePte(p, perm))];
      own, at, held := own[p := At(r, 0, v)], at[At(r, 0, v) := p], held - {p};
      view := Mapped(view, k, p, perm, bytes[p]);
      Record(s, Map(k, p, perm));
    }

    /** mappages of one page that becomes the page table's own.  The remap panic is excluded by
        v not being mapped. */
    method MapOwn(r: nat, v: nat, p: nat, perm: Perm) returns (ok: bool)
      requires Valid() && r in view.roots && v < MAXVPN && Key(r, v) !in view.leaf && IsLeaf(perm)
      requires p in held && p in bytes && |bytes[p]| == PGSIZE
      modifies this`freelist, this`ptes, this`own, this`at, this`held, this`view, this`trace
      ensures Valid()
      ensures ok ==> view == Mapped(old(view), Key(r, v), p, perm, bytes[p]) && held == old(held) - {p}
      ensures !ok ==> view == old(view) && held == old(held) && freelist == []
    {
      var pt;
      ok, pt := Walk(r, v, true);
      if ok { SetOwn(r, v, pt, p, perm); }
    }

    /** The last-level entry for v, in table pt, set for a page that stays someone else's. */
    method SetShared(r: nat, v: nat, pt: nat, p: nat, perm: Perm)
      requires Valid() && Key(r, v) !in view.leaf && IsLeaf(perm) && At(r, 1, v) in at && at[At(r, 1, v)] == pt
      modifies this`ptes, this`view, this`trace
      ensures Valid() && view == old(view).(leaf := old(view).leaf[Key(r, v) := MakePte(p, perm)])
    {
      ghost var s, k := Abs(), Key(r, v);
      LeafShape(PageRange(lo, npages), trace, s, k);
      MadePte(p, perm);
      assert !IsValid(ptes[pt][v % ENTRIES]);
      ptes := ptes[pt := EntrySet(ptes[pt], v % ENTRIES, MakePte(p, perm))];
      view := view.(leaf := view.leaf[k := MakePte(p, perm)]);
      Record(s, Share(k, MakePte(p, perm)));
    }

    /** mappages of one page that stays someone else's: the trampoline or a trapframe. */
    method MapShared(r: nat, v: nat, p: nat, perm: Perm) returns (ok: bool)
      requires Valid() && r in view.roots && v < MAXVPN && Key(r, v) !in view.leaf && IsLeaf(perm)
      modifies this`freelist, this`ptes, this`own, this`at, this`held, this`view, this`trace
      ensures Valid() && held == old(held)
      ensures ok ==> view == old(view).(leaf := old(view).leaf[Key(r, v) := MakePte(p, perm)])
      ensures !ok ==> view == old(view) && freelist == []
    {
      var pt;
      ok, pt := Walk(r, v, true);
      if ok { SetShared(r, v, pt, p, perm); }
    }

    /** The entry for v cleared, and its page handed to the caller. */
    method ClearOwn(r: nat, v: nat, pt: nat) returns (p: nat)
      requires Valid() && Key(r, v) in view.page && At(r, 1, v) in at && at[At(r, 1, v)] == pt
      modifies this`ptes, this`own, this`at, this`held, this`view, this`trace
      ensures Valid() && held == old(held) + {p} && p !in old(held) && view == Without(old(view), {Key(r, v)})
      ensures OwnShrinks(old(own), own)
      ensures OthersKept(r, old(at), old(ptes), at, ptes)
    {
      ghost var s, k := Abs(), Key(r, v);
      PageShape(PageRange(lo, npages), trace, s, k);
      MappedShape(PageRange(lo, npages), trace, s, k);
      OwnedShape(PageRange(lo, npages), trace, s, At(r, 0, v));
      assert IsValid(ptes[pt][v % ENTRIES]) && IsLeaf(ptes[pt][v % ENTRIES]);
      OthersElsewhere(PageRange(lo, npages), trace, s, At(r, 1, v));
      p := Ppn(ptes[pt][v % ENTRIES]);
      ptes := ptes[pt := EntrySet(ptes[pt], v % ENTRIES, 0)];
      own, at, held := own - {p}, at - {At(r, 0, v)}, held + {p};
      view := Without(view, {k});
      Record(s, Unmap(k));
    }

    /** The entry for v cleared, its page being someone else's. */
    method ClearShared(r: nat, v: nat, pt: nat)
      requires Valid() && Key(r, v) in view.leaf && Key(r, v) !in view.page && At(r, 1, v) in at &&
               at[At(r, 1, v)] == pt
      modifies this`ptes, this`view, this`trace
      ensures Valid() && view == Without(old(view), {Key(r, v)})
      ensures OthersKept(r, old(at), old(ptes), at, ptes)
    {
      ghost var s, k := Abs(), Key(r, v);
      PageShape(PageRange(lo, npages), trace, s, k);
      MappedShape(PageRange(lo, npages), trace, s, k);
      assert IsValid(ptes[pt][v % ENTRIES]) && IsLeaf(ptes[pt][v % ENTRIES]);
      OthersElsewhere(PageRange(lo, npages), trace, s, At(r, 1, v));
      ptes := ptes[pt := EntrySet(ptes[pt], v % ENTRIES, 0)];
      assert view.page - {k} == view.page;
      view := Without(view, {k});
      Record(s, Unshare(k));
    }

    /** One round of uvmunmap's loop; its panics are excluded by v being mapped.  (The code frees
        the page just before it clears the entry.) */
    method UnmapOne(r: nat, v: nat, doFree: bool)
      requires Valid() && r in view.roots && v < MAXVPN && Key(r, v) in view.leaf && doFree == (Key(r, v) in view.page)
      modifies this`freelist, this`ptes, this`own, this`at, this`held, this`view, this`trace
      ensures Valid() && held == old(held) && view == Without(old(view), {Key(r, v)})
      ensures OwnShrinks(old(own), own)
      ensures OthersKept(r, old(at), old(ptes), at, ptes)
    {
      MappedShape(PageRange(lo, npages), trace, Abs(), Key(r, v));
      var ok, pt := Walk(r, v, false);
      assert ok;
      if doFree {
        var p := ClearOwn(r, v, pt);
        Kfree(p);
      } else {
        ClearShared(r, v, pt);
      }
    }

    /** One round of uvmunmap's loop, on a map that was a. */
    method UnmapNext(r: nat, v: nat, n: nat, doFree: bool, i: nat, ghost a: View)
      requires Valid() && r in a.roots && v + n <= MAXVPN && AllMapped(a, r, v, n, doFree)
      requires i < n && view == Without(a, Keys(r, v, i))
      modifies this`freelist, this`ptes, this`own, this`at, this`held, this`view, this`trace
      ensures Valid() && held == old(held) && view == Without(a, Keys(r, v, i + 1))
      ensures OwnShrinks(old(own), own)
      ensures OthersKept(r, old(at), old(ptes), at, ptes)
    {
      StillMapped(a, r, v, n, doFree, i);
      UnmapOne(r, v + i, doFree);
      WithoutMore(a, r, v, i);
    }

    /** uvmunmap: exactly the n translations from v on go, and their pages if do_free. */
    method Uvmunmap(r: nat, v: nat, n: nat, doFree: bool)
      requires Valid() && r in view.roots && v + n <= MAXVPN
      requires AllMapped(view, r, v, n, doFree)
      modifies this`freelist, this`ptes, this`own, this`at, this`held, this`view, this`trace
      ensures Valid() && held == old(held) && view == Without(old(view), Keys(r, v, n))
      ensures OwnShrinks(old(own), own)
      ensures OthersKept(r, old(at), old(ptes), at, ptes)
    {
      var i := 0;
      while i < n
        invariant i <= n && Valid() && held == old(held) && view == Without(old(view), Keys(r, v, i))
        invariant OwnShrinks(old(own), own) && OthersKept(r, old(at), old(ptes), at, ptes)
      {
        UnmapNext(r, v, n, doFree, i, old(view));
        i := i + 1;
      }
    }

    /** kalloc, fill, and mappages: one page more at v, or none of it. */
    method AddPage(r: nat, v: nat, content: seq<Byte>, perm: Perm) returns (ok: bool, p: nat)
      requires Valid() && Space(view, r, v) && npages <= MAXVPN - 2 && |content| == PGSIZE && IsLeaf(perm)
      modifies this`freelist, this`ptes, this`bytes, this`own, this`at, this`held, this`view, this`trace
      ensures Valid() && held == old(held)
      ensures ok ==> v < MAXVPN - 2 && view == Mapped(old(view), Key(r, v), p, perm, content)
      ensures !ok ==> view == old(view)
    {
      ok, p := Kalloc();
      if !ok { return; }
      SpaceFits(PageRange(lo, npages), trace, Abs(), r, v, p);
      Fill(p, content);
      ok := MapOwn(r, v, p, perm);
      if !ok { Kfree(p); }
    }

    /** Pages just added, from v on, taken away again. */
    method Undo(r: nat, v: nat, n: nat, ghost a: View, ghost news: seq<New>)
      requires Valid() && Space(a, r, v) && view == With(a, r, v, news) && n == |news| && v + n <= MAXVPN - 2
      modifies this`freelist, this`ptes, this`own, this`at, this`held, this`view, this`trace
      ensures Valid() && held == old(held) && view == a
    {
      SpaceGrows(a, r, v, news);
      GrownMapped(a, r, v, news);
      Uvmunmap(r, v, n, true);
      WithWithout(a, r, v, news, Keys(r, v, n));
    }

    /** One round of uvmalloc's loop, pages ps having been added from n0 on. */
    method GrowOne(r: nat, v: nat, content: seq<Byte>, perm: Perm, ghost a: View, ghost n0: nat, ghost ps: seq<nat>)
      returns (ok: bool, p: nat)
      requires Valid() && Space(a, r, n0) && v == n0 + |ps| <= MAXVPN - 2 &&
               view == With(a, r, n0, Alike(ps, content, perm))
      requires npages <= MAXVPN - 2 && IsLeaf(perm) && |content| == PGSIZE
      modifies this`freelist, this`ptes, this`bytes, this`own, this`at, this`held, this`view, this`trace
      ensures Valid() && held == old(held)
      ensures ok ==> v < MAXVPN - 2 && view == With(a, r, n0, Alike(ps + [p], content, perm))
      ensures !ok ==> view == old(view)
    {
      ghost var b := view;
      SpaceGrows(a, r, n0, Alike(ps, content, perm));
      ok, p := AddPage(r, v, content, perm);
      AlikeMore(a, b, r, n0, ps, p, content, perm, Key(r, v));
    }

    /** uvmalloc's loop, by page: pages n0 to n1, or none of them.  Memory runs out before walk's
        bound on addresses is met. */
    method GrowPages(r: nat, n0: nat, n1: nat, content: seq<Byte>, perm: Perm) returns (ok: bool, ghost ps: seq<nat>)
      requires Valid() && Space(view, r, n0) && npages <= MAXVPN - 2 && IsLeaf(perm) && n0 <= n1 && |content| == PGSIZE
      modifies this`freelist, this`ptes, this`bytes, this`own, this`at, this`held, this`view, this`trace
      ensures Valid() && held == old(held)
      ensures ok ==> |ps| == n1 - n0 && view == With(old(view), r, n0, Alike(ps, content, perm)) && Space(view, r, n1)
      ensures !ok ==> view == old(view) && n0 < n1
    {
      ps := [];
      ghost var a := view;
      var v := n0;
      while v < n1
        invariant v == n0 + |ps| <= n1 && v <= MAXVPN - 2 && Valid() && held == old(held)
        invariant view == With(a, r, n0, Alike(ps, content, perm))
      {
        var more, p := GrowOne(r, v, content, perm, a, n0, ps);
        if !more {
          Undo(r, n0, v - n0, a, Alike(ps, content, perm));
          return false, [];
        }
        ps := ps + [p];
        v := v + 1;
      }
      SpaceGrows(a, r, n0, Alike(ps, content, perm));
      ok := true;
    }

    /** uvmalloc: pages of zeroes up to newsz, with the given permissions; 0, and every translation
        as before, if memory runs out. */
    method Uvmalloc(r: nat, oldsz: nat, newsz: nat, xperm: Perm) returns (size: nat, ghost ps: seq<nat>)
      requires Valid() && Space(view, r, PagesIn(oldsz)) && npages <= MAXVPN - 2 && IsXperm(xperm)
      modifies this`freelist, this`ptes, this`bytes, this`own, this`at, this`held, this`view, this`trace
      ensures Valid() && held == old(held)
      ensures newsz < oldsz ==> size == oldsz && view == old(view)
      ensures newsz >= oldsz ==> size == newsz || (size == 0 && view == old(view))
      ensures newsz >= oldsz && size == newsz ==>
                && |ps| == PagesIn(newsz) - PagesIn(oldsz) && Space(view, r, PagesIn(newsz))
                && view == With(old(view), r, PagesIn(oldsz), Alike(ps, ZeroPage(), UserPerm(xperm)))
                && Twin(old(view), r, view, r, oldsz) && Zeroed(view, r, PGSIZE * PagesIn(oldsz), newsz, xperm)
    {
      ps := [];
      if newsz < oldsz { return oldsz, []; }
      PagesMonotone(oldsz, newsz);
      var ok;
      ok, ps := GrowPages(r, PagesIn(oldsz), PagesIn(newsz), ZeroPage(), UserPerm(xperm));
      if !ok { return 0, ps; }
      GrownBytes(old(view), view, r, oldsz, Alike(ps, ZeroPage(), UserPerm(xperm)));
      NewBytes(old(view), view, r, PagesIn(oldsz), newsz, ps, xperm);
      size := newsz;
    }

    /** uvmdealloc: the pages above newsz go, and with them their translations. */
    method Uvmdealloc(r: nat, oldsz: nat, newsz: nat) returns (size: nat)
      requires Valid() && Space(view, r, PagesIn(oldsz))
      modifies this`freelist, this`ptes, this`own, this`at, this`held, this`view, this`trace
      ensures Valid() && held == old(held) && size == if newsz < oldsz then newsz else oldsz
      ensures Space(view, r, PagesIn(size))
      ensures view == if newsz < oldsz
              then Without(old(view), Keys(r, PagesIn(newsz), PagesIn(oldsz) - PagesIn(newsz))) else old(view)
      ensures Twin(old(view), r, view, r, size) && Unbacked(view, r, PGSIZE * PagesIn(size), oldsz)
    {
      WithoutNone(view);
      if newsz >= oldsz {
        ShrunkBytes(view, view, r, oldsz, oldsz);
        return oldsz;
      }
      PagesMonotone(newsz, oldsz);
      if PagesIn(newsz) < PagesIn(oldsz) {
        Uvmunmap(r, PagesIn(newsz), PagesIn(oldsz) - PagesIn(newsz), true);
      }
      SpaceShrinks(old(view), r, PagesIn(oldsz), PagesIn(newsz),
        Keys(r, PagesIn(newsz), PagesIn(oldsz) - PagesIn(newsz)));
      ShrunkBytes(old(view), view, r, oldsz, newsz);
      size := newsz;
    }

    /** One round of uvmcopy's loop: the child gets a copy of the parent's page v. */
    method CopyPage(parent: nat, child: nat, v: nat) returns (ok: bool, p: nat)
      requires Valid() && parent in view.roots && Key(parent, v) in view.page && v < MAXVPN &&
               Space(view, child, v) && npages <= MAXVPN - 2
      modifies this`freelist, this`ptes, this`bytes, this`own, this`at, this`held, this`view, this`trace
      ensures Valid() && held == old(held) && Key(parent, v) in old(view).leaf
      ensures ok ==> v < MAXVPN - 2
      ensures ok ==>
                view == Mapped(old(view), Key(child, v), p, Flags(old(view).leaf[Key(parent, v)]),
                  old(view).page[Key(parent, v)])
      ensures !ok ==> view == old(view)
    {
      ghost var k := Key(parent, v);
      PageShape(PageRange(lo, npages), trace, Abs(), k);
      MappedShape(PageRange(lo, npages), trace, Abs(), k);
      var found, pt := Walk(parent, v, false);
      assert found;
      var e := ptes[pt][v % ENTRIES];
      assert IsValid(e);
      LeafFlags(e);
      ok, p := AddPage(child, v, bytes[Ppn(e)], Flags(e));
    }

    /** uvmcopy: every page of the parent's memory copied, permissions and all; if memory runs out,
        every translation is as before and every copy is freed. */
    method Uvmcopy(parent: nat, child: nat, sz: nat) returns (ok: bool, ghost ps: seq<nat>)
      requires Valid() && Space(view, parent, PagesIn(sz)) && Space(view, child, 0) && parent != child &&
               npages <= MAXVPN - 2
      modifies this`freelist, this`ptes, this`bytes, this`own, this`at, this`held, this`view, this`trace
      ensures Valid() && held == old(held)
      ensures ok ==>
                |ps| == PagesIn(sz) && view == With(old(view), child, 0, Copies(old(view), parent, ps)) &&
                  Space(view, child, PagesIn(sz)) && Twin(old(view), parent, view, child, sz)
      ensures !ok ==> view == old(view)
    {
      ps := [];
      ghost var a := view;
      var v := 0;
      while v < PagesIn(sz)
        invariant v == |ps| <= PagesIn(sz) && Valid() && held == old(held)
        invariant view == With(a, child, 0, Copies(a, parent, ps))
      {
        SpaceGrows(a, child, 0, Copies(a, parent, ps));
        CopiesElsewhere(a, parent, PagesIn(sz), child, ps, v);
        var more, p := CopyPage(parent, child, v);
        if !more {
          Undo(child, 0, v, a, Copies(a, parent, ps));
          return false, [];
        }
        CopiesMore(a, parent, child, ps, p);
        ps := ps + [p];
        v := v + 1;
      }
      SpaceGrows(a, child, 0, Copies(a, parent, ps));
      CopiedBytes(a, view, parent, child, sz, ps);
      ok := true;
    }

    /** The state is a reachable one, but for the entry leading to the table that was at pl. */
    ghost predicate ValidBut(pl: Place)
      reads this
    {
      Reached(PageRange(lo, npages), trace, Sys(Cleared(Abs().m, pl), view))
    }

    /** The tables above level l, as they were. */
    ghost predicate Above(l: nat, at0: map<Place, nat>, ptes0: map<nat, seq<nat>>)
      reads this
    {
      forall q | q in at0 && q.lvl > l ::
        q in at && at[q] == at0[q] && at0[q] in ptes0 && at0[q] in ptes && ptes[at0[q]] == ptes0[at0[q]]
    }

    /** freewalk's end: the empty table's page is freed; the entry that led to it is left to the caller. */
    method FreeTable(pt: nat, ghost pl: Place)
      requires Valid() && pl in at && at[pl] == pt && 1 <= pl.lvl <= 3 && pt in ptes && |ptes[pt]| == ENTRIES
      requires forall i | 0 <= i < ENTRIES :: !IsValid(ptes[pt][i])
      modifies this`freelist, this`own, this`at, this`view, this`trace
      ensures ValidBut(pl) && at == old(at) - {pl} && freelist == [pt] + old(freelist)
      ensures OwnShrinks(old(own), own)
      ensures OthersKept(pl.root, old(at), old(ptes), at, ptes)
      ensures view == if pl.lvl == 3 then old(view).(roots := old(view).roots - {pl.root}) else old(view)
    {
      ghost var s := Abs();
      PruneShape(PageRange(lo, npages), trace, s, pl);
      freelist := [pt] + freelist;
      own, at := own - {pt}, at - {pl};
      view := Next(s, Prune(pl)).a;
      PruneFree(PageRange(lo, npages), trace, s, pl, Abs().m);
      trace := Then(Then(trace, Prune(pl)), Free(pt));
    }

    /** One round of freewalk's loop.  The leaf panic is excluded, since all leaves are gone. */
    method FreeEntry(pt: nat, i: nat, ghost pl: Place)
      requires Valid() && pl in at && at[pl] == pt && 1 <= pl.lvl <= 3 && NoLeaves(view, pl.root) && i < ENTRIES
      requires pt in ptes && |ptes[pt]| == ENTRIES
      modifies this`freelist, this`ptes, this`own, this`at, this`view, this`trace
      ensures Valid() && pl in at && at[pl] == pt && view == old(view) && Above(pl.lvl, old(at), old(ptes))
      ensures OwnShrinks(old(own), own)
      ensures OthersKept(pl.root, old(at), old(ptes), at, ptes)
      ensures pt in ptes && |ptes[pt]| == ENTRIES && !IsValid(ptes[pt][i])
      ensures forall j | 0 <= j < ENTRIES && j != i :: ptes[pt][j] == old(ptes[pt][j])
      decreases pl.lvl, 0
    {
      WalkShape(PageRange(lo, npages), trace, Abs(), pl, i);
      TableSizes(PageRange(lo, npages), trace, Abs());
      var e := ptes[pt][i];
      if IsValid(e) && !IsLeaf(e) {
        ParentOfChild(pl, i);
        FreeWalk(Ppn(e), Child(pl, i));
        ptes := ptes[pt := EntrySet(ptes[pt], i, 0)];
        OthersElsewhere(PageRange(lo, npages), trace, Abs(), pl);
      } else {
        assert !IsValid(e);
      }
    }

    /** freewalk: the table at pl and all tables below it are freed. */
    method FreeWalk(pt: nat, ghost pl: Place)
      requires Valid() && pl in at && at[pl] == pt && 1 <= pl.lvl <= 3 && NoLeaves(view, pl.root)
      modifies this`freelist, this`ptes, this`own, this`at, this`view, this`trace
      ensures ValidBut(pl) && pl !in at && Above(pl.lvl, old(at), old(ptes))
      ensures OwnShrinks(old(own), own)
      ensures OthersKept(pl.root, old(at), old(ptes), at, ptes)
      ensures view == if pl.lvl == 3 then old(view).(roots := old(view).roots - {pl.root}) else old(view)
      decreases pl.lvl
    {
      TableSizes(PageRange(lo, npages), trace, Abs());
      var i := 0;
      while i < ENTRIES
        invariant i <= ENTRIES && Valid() && pl in at && at[pl] == pt && view == old(view) &&
                  Above(pl.lvl, old(at), old(ptes))
        invariant OwnShrinks(old(own), own) && OthersKept(pl.root, old(at), old(ptes), at, ptes)
        invariant pt in ptes && |ptes[pt]| == ENTRIES && forall j | 0 <= j < i :: !IsValid(ptes[pt][j])
      {
        FreeEntry(pt, i, pl);
        i := i + 1;
      }
      FreeTable(pt, pl);
    }

    /** uvmcreate: an empty page table. */
    method Uvmcreate() returns (ok: bool, r: nat)
      requires Valid()
      modifies this`freelist, this`ptes, this`own, this`at, this`held, this`view, this`trace
      ensures Valid() && held == old(held)
      ensures ok ==> r !in old(view).roots && view == old(view).(roots := old(view).roots + {r}) && Empty(old(view), r)
      ensures !ok ==> view == old(view)
    {
      ok, r := Kalloc();
      if ok {
        ghost var s := Abs();
        forall k: Key | k.r == r ensures k !in view.leaf && k !in view.page && r !in view.roots {
          FreshRoot(PageRange(lo, npages), trace, s, r, k);
        }
        FreshRoot(PageRange(lo, npages), trace, s, r, Key(r, 0));
        ptes := ptes[r := NoEntries()];
        own, at, held := own[r := Place(r, 3, 0)], at[Place(r, 3, 0) := r], held - {r};
        view := view.(roots := view.roots + {r});
        Record(s, Root(r));
      }
    }

    /** uvmfree: the user pages and all the tables are freed. */
    method Uvmfree(r: nat, sz: nat)
      requires Valid() && Space(view, r, PagesIn(sz)) && OnlyUser(view, r, PagesIn(sz))
      modifies this`freelist, this`ptes, this`own, this`at, this`held, this`view, this`trace
      ensures Valid() && held == old(held) && view == Gone(old(view), r, PagesIn(sz))
      ensures OwnShrinks(old(own), own)
      ensures OthersKept(r, old(at), old(ptes), at, ptes)
    {
      if sz > 0 {
        SpaceMapped(view, r, PagesIn(sz));
        Uvmunmap(r, 0, PagesIn(sz), true);
      } else {
        WithoutNone(view);
      }
      UserGone(old(view), r, PagesIn(sz));
      RootShape(PageRange(lo, npages), trace, Abs(), r);
      FreeWalk(r, Place(r, 3, 0));
    }

    /** uvmfree(pagetable, 0) of a page table just created. */
    method FreeEmpty(r: nat, ghost a: View)
      requires Valid() && r !in a.roots && Empty(a, r) && view == a.(roots := a.roots + {r})
      modifies this`freelist, this`ptes, this`own, this`at, this`held, this`view, this`trace
      ensures Valid() && held == old(held) && view == a
    {
      EmptySpace(view, r);
      GoneEmpty(a, view, r);
      Uvmfree(r, 0);
    }

    /** proc_pagetable: a page table with the trampoline and the trapframe, or, if memory runs
        out, everything as before. */
    method ProcPagetable(trampoline: nat, trapframe: nat) returns (ok: bool, r: nat)
      requires Valid()
      modifies this`freelist, this`ptes, this`own, this`at, this`held, this`view, this`trace
      ensures Valid() && held == old(held)
      ensures ok ==>
                && r !in old(view).roots && view == WithProc(old(view), r, trampoline, trapframe)
                && ProcSpace(view, r, 0) && forall x: nat :: !UserAt(view, r, x)
      ensures !ok ==> view == old(view)
    {
      ok, r := Uvmcreate();
      if ok {
        ok := MapKernelPages(r, trampoline, trapframe, old(view));
        if ok {
          ProcSpaceNew(old(view), view, r, trampoline, trapframe);
          ProcNotUser(old(view), view, r, trampoline, trapframe);
        }
      }
    }

    /** The two mappings of proc_pagetable, in a page table just created where the map was `was`. */
    method MapKernelPages(r: nat, trampoline: nat, trapframe: nat, ghost was: View) returns (ok: bool)
      requires Valid() && r !in was.roots && Empty(was, r) && view == was.(roots := was.roots + {r})
      modifies this`freelist, this`ptes, this`own, this`at, this`held, this`view, this`trace
      ensures Valid() && held == old(held)
      ensures view == if ok then WithProc(was, r, trampoline, trapframe) else was
    {
      ok := MapShared(r, TRAMPOLINE, trampoline, PTE_R + PTE_X);
      if !ok {
        FreeEmpty(r, was);
        return;
      }
      ok := MapShared(r, TRAPFRAME, trapframe, PTE_R + PTE_W);
      if !ok { UndoTrampoline(r, trampoline, old(view), was); }
    }

    /** The error path of proc_pagetable when the trapframe cannot be mapped. */
    method UndoTrampoline(r: nat, trampoline: nat, ghost a: View, ghost was: View)
      requires Valid() && r !in was.roots && Empty(was, r) && a == was.(roots := was.roots + {r})
      requires Key(r, TRAMPOLINE) !in a.leaf && Key(r, TRAMPOLINE) !in a.page
      requires view == a.(leaf := a.leaf[Key(r, TRAMPOLINE) := MakePte(trampoline, PTE_R + PTE_X)])
      modifies this`freelist, this`ptes, this`own, this`at, this`held, this`view, this`trace
      ensures Valid() && held == old(held) && view == was
    {
      Uvmunmap(r, TRAMPOLINE, 1, false);
      MappedUnmapped(a, Key(r, TRAMPOLINE), MakePte(trampoline, PTE_R + PTE_X));
      FreeEmpty(r, was);
    }

    /** proc_freepagetable: every page of the address space is freed, and nothing else changes. */
    method ProcFreepagetable(r: nat, sz: nat)
      requires Valid() && ProcSpace(view, r, PagesIn(sz))
      modifies this`freelist, this`ptes, this`own, this`at, this`held, this`view, this`trace
      ensures Valid() && held == old(held) && view == ProcGone(old(view), r, PagesIn(sz))
      ensures forall p | p in old(own) && old(own)[p].root == r :: p in freelist
      ensures OwnShrinks(old(own), own)
      ensures OthersKept(r, old(at), old(ptes), at, ptes)
    {
      ghost var s, tr := Abs(), trace;
      Uvmunmap(r, TRAMPOLINE, 1, false);
      Uvmunmap(r, TRAPFRAME, 1, false);
      ProcUnmapped(old(view), r, PagesIn(sz));
      Uvmfree(r, sz);
      forall p | p in old(own) && old(own)[p].root == r ensures p in freelist {
        OwnPlace(PageRange(lo, npages), tr, s, p);
        FreedPages(PageRange(lo, npages), trace, Abs(), old(own), r, p);
      }
    }

    /** walkaddr: the page of address x, if the user may access it. */
    method Walkaddr(r: nat, x: nat) returns (ok: bool, p: nat)
      requires Valid() && r in view.roots
      modifies this`freelist, this`ptes, this`own, this`at, this`held, this`trace
      ensures Valid() && Abs() == old(Abs()) && ok == UserAt(view, r, x)
      ensures ok ==> p == Ppn(view.leaf[Key(r, x / PGSIZE)])
    {
      ok, p := false, 0;
      var v := x / PGSIZE;
      if v >= MAXVPN { return; }
      ghost var k := Key(r, v);
      if At(r, 1, v) in at { LeafShape(PageRange(lo, npages), trace, Abs(), k); }
        else { NoTableShape(PageRange(lo, npages), trace, Abs(), k); }
      var found, pt := Walk(r, v, false);
      if !found { return; }
      var e := ptes[pt][v % ENTRIES];
      if !IsValid(e) { return; }
      if !IsUser(e) { return; }
      ok, p := true, Ppn(e);
    }

    /** memmove into the user page of k. */
    method WritePage(ghost k: Key, p: nat, off: nat, chunk: seq<Byte>)
      requires Valid() && k in view.page && k in view.leaf && p == Ppn(view.leaf[k]) && |view.page[k]| == PGSIZE
      requires off + |chunk| <= PGSIZE
      modifies this`bytes, this`view, this`trace
      ensures Valid() && view == old(view).(page := old(view).page[k := Overwritten(old(view).page[k], off, chunk)])
    {
      ghost var s := Abs();
      PageShape(PageRange(lo, npages), trace, s, k);
      bytes := bytes[p := Overwritten(bytes[p], off, chunk)];
      view := view.(page := view.page[k := Overwritten(view.page[k], off, chunk)]);
      Record(s, Store(k, Overwritten(s.a.page[k], off, chunk)));
    }

    /** One round of copyout's loop: the next chunk, after tot bytes, if its page is the user's. */
    method CopyoutOne(r: nat, dst: nat, src: seq<Byte>, tot: nat, ghost a: View) returns (ok: bool, m: nat)
      requires Valid() && r in a.roots && UserOwned(a, r) && WholePages(a) && tot < |src| &&
               view == Patched(a, r, dst, src[..tot])
      modifies this`freelist, this`ptes, this`bytes, this`own, this`at, this`held, this`view, this`trace
      ensures Valid() && ok == UserAt(a, r, dst + tot)
      ensures ok ==>
                0 < m <= |src| - tot && (dst + tot) % PGSIZE + m <= PGSIZE && view == Patched(a, r, dst, src[..tot + m])
      ensures !ok ==> view == old(view)
    {
      PatchedKeeps(a, view, r, dst, src[..tot], dst + tot);
      var p;
      ok, p := Walkaddr(r, dst + tot);
      var off;
      off, m := InPage(dst + tot, |src| - tot);
      if ok {
        ghost var k := Key(r, (dst + tot) / PGSIZE);
        var chunk := src[tot..tot + m];
        assert |chunk| == m && k in view.leaf && p == Ppn(view.leaf[k]);
        assert k in view.page && |view.page[k]| == PGSIZE && Patched(a, r, dst, src[..tot + m])
            == view.(page := view.page[k := Overwritten(view.page[k], off, chunk)]) by {
          PatchMore(a, view, r, dst, src, tot, m, k);
        }
        WritePage(k, p, off, chunk);
      }
    }

    method CopyoutMore(r: nat, dst: nat, src: seq<Byte>, tot: nat, ghost a: View) returns (ok: bool, m: nat)
      requires Valid() && r in a.roots && UserOwned(a, r) && WholePages(a) && tot < |src| &&
               view == Patched(a, r, dst, src[..tot]) && UserRange(a, r, dst, tot)
      modifies this`freelist, this`ptes, this`bytes, this`own, this`at, this`held, this`view, this`trace
      ensures Valid() && (ok ==> 0 < m <= |src| - tot && UserRange(a, r, dst, tot + m))
      ensures view == Patched(a, r, dst, src[..if ok then tot + m else tot])
      ensures !ok ==> !UserAt(a, r, dst + tot)
    {
      ok, m := CopyoutOne(r, dst, src, tot, a);
      if ok { RangeMore(a, r, dst, tot, m); }
    }

    /** copyout's loop, from an address space that was a. */
    method CopyoutAll(r: nat, dst: nat, src: seq<Byte>, ghost a: View) returns (tot: nat)
      requires Valid() && r in a.roots && UserOwned(a, r) && WholePages(a) && view == Patched(a, r, dst, src[..0])
      modifies this`freelist, this`ptes, this`bytes, this`own, this`at, this`held, this`view, this`trace
      ensures Valid() && tot <= |src| && view == Patched(a, r, dst, src[..tot]) && UserRange(a, r, dst, tot)
      ensures tot < |src| ==> !UserAt(a, r, dst + tot)
    {
      tot := 0;
      while tot < |src|
        invariant tot <= |src| && Valid() && view == Patched(a, r, dst, src[..tot]) && UserRange(a, r, dst, tot)
      {
        var more, m := CopyoutMore(r, dst, src, tot, a);
        if !more { return; }
        tot := tot + m;
      }
    }

    /** copyout: all of src at dst if every page of the range is the user's; else the part before
        the first that is not. */
    method Copyout(r: nat, dst: nat, src: seq<Byte>) returns (ok: bool, ghost tot: nat)
      requires Valid() && r in view.roots && UserOwned(view, r)
      modifies this`freelist, this`ptes, this`bytes, this`own, this`at, this`held, this`view, this`trace
      ensures Valid() && tot <= |src| && view == Patched(old(view), r, dst, src[..tot])
      ensures UserRange(old(view), r, dst, tot) && ok == (tot == |src|) && (!ok ==> !UserAt(old(view), r, dst + tot))
    {
      PageSizes(PageRange(lo, npages), trace, Abs());
      PatchedNothing(view, r, dst);
      assert src[..0] == [];
      var done := CopyoutAll(r, dst, src, view);
      ok, tot := done == |src|, done;
    }

    /** copyin: the n bytes at src if every page of the range is the user's; else nothing. */
    method Copyin(r: nat, src: nat, n: nat) returns (ok: bool, data: seq<Byte>)
      requires Valid() && r in view.roots && UserOwned(view, r)
      modifies this`freelist, this`ptes, this`own, this`at, this`held, this`trace
      ensures Valid() && Abs() == old(Abs()) && ok == UserRange(view, r, src, n) &&
              (ok ==> data == Bytes(view, r, src, n))
    {
      PageSizes(PageRange(lo, npages), trace, Abs());
      var tot := 0;
      data := [];
      while tot < n
        invariant tot <= n && Valid() && Abs() == old(Abs()) && data == Bytes(view, r, src, tot) &&
                  UserRange(view, r, src, tot)
      {
        var more, p := Walkaddr(r, src + tot);
        if !more { return false, []; }
        PageShape(PageRange(lo, npages), trace, Abs(), Key(r, (src + tot) / PGSIZE));
        var off, m := InPage(src + tot, n - tot);
        BytesMore(view, r, src, tot, m);
        RangeMore(view, r, src, tot, m);
        data := data + bytes[p][off..off + m];
        tot := tot + m;
      }
      ok := true;
    }

    /** growproc: the process grows or shrinks by n bytes, or is left as it is if that would be below
        nothing, because the sum wraps; -1, and everything as before, if memory runs out. */
    method Growproc(r: nat, sz: nat, n: int) returns (ok: bool, sz': nat)
      requires Valid() && Space(view, r, PagesIn(sz)) && npages <= MAXVPN - 2 && -0x8000_0000 <= n < 0x8000_0000
      modifies this`freelist, this`ptes, this`bytes, this`own, this`at, this`held, this`view, this`trace
      ensures Valid() && held == old(held) && Space(view, r, PagesIn(sz'))
      ensures sz' == if ok && sz + n >= 0 then sz + n else sz
      ensures (!ok ==> n > 0) && (!ok || sz + n < 0 ==> view == old(view))
      ensures Twin(old(view), r, view, r, if sz' < sz then sz' else sz)
      ensures Zeroed(view, r, PGSIZE * PagesIn(sz), sz', PTE_W) && Unbacked(view, r, PGSIZE * PagesIn(sz'), sz)
    {
      sz' := sz;
      WithoutNone(view);
      ShrunkBytes(view, view, r, sz, sz);
      var sum: nat := (sz + n) % 0x1_0000_0000_0000_0000;
      SumWraps(sz, n);
      if n > 0 {
        var size, ps := Uvmalloc(r, sz, sum, PTE_W);
        if size == 0 { return false, sz; }
        sz' := size;
      } else if n < 0 {
        sz' := Uvmdealloc(r, sz, sum);
      }
      ok := true;
    }
  }

  /** sz + n in 64 bits. */
  lemma SumWraps(sz: nat, n: int)
    requires PagesIn(sz) <= MAXVPN && -0x8000_0000 <= n < 0x8000_0000
    ensures sz + n >= 0 ==> (sz + n) % 0x1_0000_0000_0000_0000 == sz + n
    ensures sz + n < 0 ==> (sz + n) % 0x1_0000_0000_0000_0000 >= sz
  {
    assert sz <= MAXVPN * PGSIZE;
  }
}
