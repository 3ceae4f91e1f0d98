/** The user-level memory allocator (user/umalloc.c): a circular list of free blocks in address
    order, split by malloc and merged again by free.

    Addresses count header-sized units.  A block is known by the address of its header. */
module FreeBlocks {

  // ---------------------------------------------------------------------------------------
  // Tiling: every unit of memory belongs to one block.

  /** `owner` says which block each unit obtained from sbrk belongs to. */
  ghost predicate Tiled(size: map<nat, nat>, blocks: set<nat>, owner: map<nat, nat>) {
    && (forall x | x in owner :: owner[x] in blocks)
    && (forall a | a in blocks :: a in size && size[a] > 0)
    && (forall x | x in owner && owner[x] in size :: owner[x] <= x < owner[x] + size[owner[x]])
    && (forall a | a in blocks && a in size :: Owns(owner, a, size[a]))
  }

  /** The n units from a on belong to block a. */
  ghost predicate Owns(owner: map<nat, nat>, a: nat, n: nat) {
    forall x: nat | a <= x < a + n :: x in owner && owner[x] == a
  }

  lemma OwnsItself(size: map<nat, nat>, blocks: set<nat>, owner: map<nat, nat>, a: nat)
    requires Tiled(size, blocks, owner) && a in blocks
    ensures a in owner && owner[a] == a
  {
    assert Owns(owner, a, size[a]);
  }

  /** Blocks do not overlap. */
  lemma Apart(size: map<nat, nat>, blocks: set<nat>, owner: map<nat, nat>, a: nat, b: nat)
    requires Tiled(size, blocks, owner) && a in blocks && b in blocks && a < b
    ensures a in size && a + size[a] <= b
  {
    assert Owns(owner, a, size[a]) && Owns(owner, b, size[b]);
    assert owner[b] == b;
  }

  /** The owners after block b has been joined to block a below it. */
  ghost function Joined(owner: map<nat, nat>, a: nat, b: nat): map<nat, nat> {
    map x | x in owner :: if owner[x] == b then a else owner[x]
  }

  lemma JoinTiled(size: map<nat, nat>, size': map<nat, nat>, blocks: set<nat>, blocks': set<nat>,
                  owner: map<nat, nat>, owner': map<nat, nat>, a: nat, b: nat)
    requires Tiled(size, blocks, owner) && a in blocks && b in blocks && a + size[a] == b
    requires size' == size[a := size[a] + size[b]] && blocks' == blocks - {b} && owner' == Joined(owner, a, b)
    ensures Tiled(size', blocks', owner') && owner'.Keys == owner.Keys
  {
    forall c | c in blocks' ensures Owns(owner', c, size'[c]) {
      JoinOwns(size, blocks, owner, owner', a, b, c);
    }
    forall x | x in owner' ensures owner'[x] in blocks' && owner'[x] <= x < owner'[x] + size'[owner'[x]] {
      JoinWithin(size, blocks, owner, owner', a, b, x);
    }
  }

  lemma JoinWithin(size: map<nat, nat>, blocks: set<nat>, owner: map<nat, nat>, owner': map<nat, nat>, a: nat, b: nat,
                   x: nat)
    requires Tiled(size, blocks, owner) && a in blocks && b in blocks && a + size[a] == b
    requires owner' == Joined(owner, a, b) && x in owner
    ensures var c := owner'[x];
            c in blocks - {b} && c <= x < c + if c == a then size[a] + size[b] else size[c]
  {
    assert owner[x] in blocks && owner[x] <= x < owner[x] + size[owner[x]];
  }

  lemma JoinOwns(size: map<nat, nat>, blocks: set<nat>, owner: map<nat, nat>, owner': map<nat, nat>, a: nat, b: nat,
                 c: nat)
    requires Tiled(size, blocks, owner) && a in blocks && b in blocks && a + size[a] == b
    requires owner' == Joined(owner, a, b) && c in blocks && c != b
    ensures Owns(owner', c, if c == a then size[a] + size[b] else size[c])
  {
    assert Owns(owner, c, size[c]) && Owns(owner, b, size[b]);
  }

  /** The owners after the part of block a from q on has become a block. */
  ghost function Cut(owner: map<nat, nat>, a: nat, q: nat): map<nat, nat> {
    map x | x in owner :: if owner[x] == a && x >= q then q else owner[x]
  }

  lemma CutTiled(size: map<nat, nat>, size': map<nat, nat>, blocks: set<nat>, blocks': set<nat>,
                 owner: map<nat, nat>, owner': map<nat, nat>, a: nat, n: nat, q: nat)
    requires Tiled(size, blocks, owner) && a in blocks && 0 < n < size[a] && q == a + size[a] - n
    requires size' == size[a := size[a] - n][q := n] && blocks' == blocks + {q} && owner' == Cut(owner, a, q)
    ensures q !in blocks && Tiled(size', blocks', owner') && owner'.Keys == owner.Keys
  {
    if q in blocks { Apart(size, blocks, owner, a, q); }
    forall c | c in blocks' ensures Owns(owner', c, size'[c]) { CutOwns(size, blocks, owner, a, n, q, c); }
    forall x | x in owner' ensures owner'[x] in blocks' && owner'[x] <= x < owner'[x] + size'[owner'[x]] {
      assert owner[x] in blocks && owner[x] <= x < owner[x] + size[owner[x]];
    }
  }

  lemma CutOwns(size: map<nat, nat>, blocks: set<nat>, owner: map<nat, nat>, a: nat, n: nat, q: nat, c: nat)
    requires Tiled(size, blocks, owner) && a in blocks && 0 < n < size[a] && q == a + size[a] - n && q !in blocks &&
             c in blocks + {q}
    ensures Owns(Cut(owner, a, q), c, if c == q then n else if c == a then size[a] - n else size[c])
  {
    assert Owns(owner, a, size[a]);
    if c in blocks { assert Owns(owner, c, size[c]); }
  }

  /** The owners with a new region of n units at a. */
  ghost function Grown(owner: map<nat, nat>, a: nat, n: nat): map<nat, nat> {
    owner + map x | x in Units(a, n) :: a
  }

  ghost function Units(a: nat, n: nat): (s: set<nat>)
    ensures forall x :: x in s <==> a <= x < a + n
  {
    if n == 0 then {} else Units(a, n - 1) + {a + n - 1}
  }

  lemma GrowTiled(size: map<nat, nat>, blocks: set<nat>, owner: map<nat, nat>, a: nat, n: nat)
    requires Tiled(size, blocks, owner) && n > 0 && forall x | x in owner :: x < a
    ensures a !in blocks && Tiled(size[a := n], blocks + {a}, Grown(owner, a, n)) &&
            Grown(owner, a, n).Keys == owner.Keys + Units(a, n)
  {
    if a in blocks { OwnsItself(size, blocks, owner, a); }
    GrowOwners(size, blocks, owner, a, n, size[a := n], blocks + {a}, Grown(owner, a, n));
  }

  lemma GrowOwners(size: map<nat, nat>, blocks: set<nat>, owner: map<nat, nat>, a: nat, n: nat,
                   size': map<nat, nat>, blocks': set<nat>, owner': map<nat, nat>)
    requires Tiled(size, blocks, owner) && a !in blocks && n > 0 && forall x | x in owner :: x < a
    requires size' == size[a := n] && blocks' == blocks + {a}
    requires forall x :: x in owner' <==> x in owner || a <= x < a + n
    requires forall x | x in owner' :: owner'[x] == if x in owner then owner[x] else a
    ensures Tiled(size', blocks', owner')
  {
    forall x | x in owner'
      ensures owner'[x] in blocks' && owner'[x] in size' && owner'[x] <= x < owner'[x] + size'[owner'[x]]
    {
    }
    forall b | b in blocks' && b in size' ensures Owns(owner', b, size'[b]) {
      if b != a { assert Owns(owner, b, size[b]); }
    }
  }

  // ---------------------------------------------------------------------------------------
  // The ring: base and the free blocks, each leading to the next in address order, the last
  // back to base.

  ghost predicate IsNext(s: set<nat>, base: nat, a: nat, b: nat) {
    b in s && if a < b then forall c | c in s :: c <= a || b <= c else b == base && forall c | c in s :: c <= a
  }

  ghost predicate Ring(s: set<nat>, base: nat, ptr: map<nat, nat>) {
    && base in s && (forall a | a in s :: base <= a && a in ptr)
    && forall a {:trigger ptr[a]} | a in s && a in ptr :: IsNext(s, base, a, ptr[a])
  }

  /** The state of the allocator: its free blocks, its headers, the blocks handed out, and the
      memory. */
  datatype Heap = Heap(free: set<nat>, ptr: map<nat, nat>, size: map<nat, nat>, live: set<nat>, owner: map<nat, nat>)

  /** Free blocks and blocks handed out tile the memory, and the ring links the free ones. */
  ghost predicate Sound(base: nat, h: Heap) {
    && Ring(h.free + {base}, base, h.ptr) && base in h.size && h.size[base] == 0
    && h.free !! h.live && Tiled(h.size, h.free + h.live, h.owner) && forall x | x in h.owner :: base < x
  }

  /** The free block (or base) a does not touch the next one. */
  ghost predicate Gap(h: Heap, a: nat) {
    a in h.ptr && a in h.size && (a < h.ptr[a] ==> a + h.size[a] < h.ptr[a])
  }

  /** Every free block is merged with its neighbours, except perhaps those in `but`. */
  ghost predicate Coalesced(base: nat, h: Heap, but: set<nat>) {
    forall a | a in h.free + {base} && a !in but :: Gap(h, a)
  }

  lemma BlockShape(base: nat, h: Heap, a: nat)
    requires Sound(base, h) && a in h.free + h.live
    ensures base < a && a in h.size && h.size[a] > 0
  {
    OwnsItself(h.size, h.free + h.live, h.owner, a);
  }

  lemma BaseShape(base: nat, h: Heap)
    requires Sound(base, h)
    ensures base !in h.free && base !in h.live
  {
    if base in h.free + h.live { BlockShape(base, h, base); }
  }

  /** What follows a free block is a free block above it, or base. */
  lemma NextFree(base: nat, h: Heap, a: nat)
    requires Sound(base, h) && a in h.free
    ensures base < a && a in h.ptr && a in h.size && h.size[a] > 0 && h.ptr[a] in h.size && h.ptr[a] in h.ptr
    ensures if a < h.ptr[a] then h.ptr[a] in h.free && h.size[h.ptr[a]] > 0 else h.ptr[a] == base
  {
    BlockShape(base, h, a);
    BaseShape(base, h);
    assert IsNext(h.free + {base}, base, a, h.ptr[a]);
    if h.ptr[a] != base { BlockShape(base, h, h.ptr[a]); }
  }

  /** Neighbours in the ring do not overlap. */
  lemma RingApart(base: nat, h: Heap, a: nat)
    requires Sound(base, h) && a in h.free + {base} && a < h.ptr[a]
    ensures a in h.size && h.ptr[a] in h.free && a + h.size[a] <= h.ptr[a]
  {
    if a in h.free { Apart(h.size, h.free + h.live, h.owner, a, h.ptr[a]); }
  }

  // ---------------------------------------------------------------------------------------
  // Joining a free block a to the free block b that follows it and touches it.

  ghost function Merged(h: Heap, a: nat, b: nat): Heap
    requires a in h.size && b in h.size && b in h.ptr
  {
    Heap(h.free - {b}, h.ptr[a := h.ptr[b]], h.size[a := h.size[a] + h.size[b]], h.live, Joined(h.owner, a, b))
  }

  ghost predicate Touching(h: Heap, a: nat, b: nat) {
    a in h.free && b in h.free && a in h.size && b in h.size && a in h.ptr && b in h.ptr && h.ptr[a] == b &&
      a + h.size[a] == b && a < b
  }

  lemma UnlinkRing(s: set<nat>, base: nat, ptr: map<nat, nat>, a: nat, b: nat)
    requires Ring(s, base, ptr) && a in s && b in s && ptr[a] == b && b != base && a < b
    ensures Ring(s - {b}, base, ptr[a := ptr[b]])
  {
    var ptr' := ptr[a := ptr[b]];
    assert IsNext(s, base, a, b) && IsNext(s, base, b, ptr[b]);
    forall c {:trigger ptr'[c]} | c in s - {b} ensures IsNext(s - {b}, base, c, ptr'[c]) {
      if c == a {
        SkipNext(s, base, a, b, ptr[b]);
      } else {
        assert IsNext(s, base, c, ptr[c]);
        OtherNext(s, base, a, b, c, ptr[c]);
      }
    }
  }

  lemma SkipNext(s: set<nat>, base: nat, a: nat, b: nat, b': nat)
    requires (forall x | x in s :: base <= x) && base in s && a in s && a < b && b != base
    requires IsNext(s, base, a, b) && IsNext(s, base, b, b')
    ensures IsNext(s - {b}, base, a, b')
  {
  }

  lemma OtherNext(s: set<nat>, base: nat, a: nat, b: nat, c: nat, d: nat)
    requires (forall x | x in s :: base <= x) && base in s && a in s && c in s && a < b && b != base && c != a
    requires IsNext(s, base, a, b) && IsNext(s, base, c, d)
    ensures d != b && IsNext(s - {b}, base, c, d)
  {
  }

  lemma MergedSound(base: nat, h: Heap, h': Heap, a: nat, b: nat)
    requires Sound(base, h) && Touching(h, a, b) && h' == Merged(h, a, b)
    ensures Sound(base, h') && h'.owner.Keys == h.owner.Keys
  {
    NextFree(base, h, a);
    MergedRing(base, h, h', a, b);
    MergedTiles(base, h, h', a, b);
    MergedParts(base, h, h', a, b);
  }

  lemma MergedRing(base: nat, h: Heap, h': Heap, a: nat, b: nat)
    requires Ring(h.free + {base}, base, h.ptr) && Touching(h, a, b) && base < a && h' == Merged(h, a, b)
    ensures Ring(h.free + {base} - {b}, base, h'.ptr)
  {
    UnlinkRing(h.free + {base}, base, h.ptr, a, b);
  }

  lemma MergedTiles(base: nat, h: Heap, h': Heap, a: nat, b: nat)
    requires Tiled(h.size, h.free + h.live, h.owner) && Touching(h, a, b) && h' == Merged(h, a, b)
    ensures Tiled(h'.size, h.free + h.live - {b}, h'.owner) && h'.owner.Keys == h.owner.Keys
  {
    JoinTiled(h.size, h'.size, h.free + h.live, h.free + h.live - {b}, h.owner, h'.owner, a, b);
  }

  lemma MergedParts(base: nat, h: Heap, h': Heap, a: nat, b: nat)
    requires h.free !! h.live && base < a < b && b in h.free && h'.free == h.free - {b} && h'.live == h.live
    requires Ring(h.free + {base} - {b}, base, h'.ptr) && base in h'.size && h'.size[base] == 0
    requires Tiled(h'.size, h.free + h.live - {b}, h'.owner) && h'.owner.Keys == h.owner.Keys &&
             forall x | x in h.owner :: base < x
    ensures Sound(base, h')
  {
    assert h.free + {base} - {b} == h'.free + {base};
    assert h.free + h.live - {b} == h'.free + h'.live;
    assert forall x | x in h'.owner :: x in h'.owner.Keys;
  }

  lemma MergedGaps(base: nat, h: Heap, h': Heap, a: nat, b: nat, but: set<nat>)
    requires Sound(base, h) && Touching(h, a, b) && h' == Merged(h, a, b) && Coalesced(base, h, but) && b !in but
    ensures Coalesced(base, h', but - {a})
  {
    BlockShape(base, h, a);
    assert Gap(h, b);
    forall c | c in h'.free + {base} && c !in but - {a} ensures Gap(h', c) {
      if c != a { assert Gap(h, c); }
    }
  }

  // ---------------------------------------------------------------------------------------
  // Putting a block into the ring, after p.

  ghost function Inserted(h: Heap, p: nat, bp: nat): Heap
    requires p in h.ptr
  {
    h.(free := h.free + {bp}, ptr := h.ptr[bp := h.ptr[p]][p := bp], live := h.live - {bp})
  }

  /** p is where bp goes: the last block, base included, below it. */
  ghost predicate IsPrev(base: nat, h: Heap, p: nat, bp: nat) {
    p in h.free + {base} && p < bp && forall c | c in h.free + {base} :: c <= p || bp < c
  }

  lemma LinkRing(s: set<nat>, base: nat, ptr: map<nat, nat>, p: nat, bp: nat)
    requires Ring(s, base, ptr) && p in s && bp !in s && p < bp && forall c | c in s :: c <= p || bp < c
    ensures Ring(s + {bp}, base, ptr[bp := ptr[p]][p := bp])
  {
    var ptr' := ptr[bp := ptr[p]][p := bp];
    forall c {:trigger ptr'[c]} | c in s + {bp}
      ensures IsNext(s + {bp}, base, c, ptr'[c]) { LinkNext(s, base, ptr, p, bp, c); }
  }

  lemma LinkNext(s: set<nat>, base: nat, ptr: map<nat, nat>, p: nat, bp: nat, c: nat)
    requires Ring(s, base, ptr) && p in s && bp !in s && p < bp && (forall c | c in s :: c <= p || bp < c) &&
             c in s + {bp}
    ensures IsNext(s + {bp}, base, c, if c == p then bp else if c == bp then ptr[p] else ptr[c])
  {
    assert IsNext(s, base, p, ptr[p]);
    if c != bp { assert IsNext(s, base, c, ptr[c]); }
  }

  lemma InsertedSound(base: nat, h: Heap, h': Heap, p: nat, bp: nat)
    requires Sound(base, h) && bp in h.live && IsPrev(base, h, p, bp) && h' == Inserted(h, p, bp)
    ensures Sound(base, h')
  {
    BlockShape(base, h, bp);
    LinkRing(h.free + {base}, base, h.ptr, p, bp);
    assert h.free + {base} + {bp} == h'.free + {base};
    assert h'.free + h'.live == h.free + h.live;
  }

  lemma InsertedGaps(base: nat, h: Heap, h': Heap, p: nat, bp: nat)
    requires Coalesced(base, h, {}) && p in h.ptr && h' == Inserted(h, p, bp)
    ensures Coalesced(base, h', {p, bp})
  {
    forall c | c in h'.free + {base} && c !in {p, bp} ensures Gap(h', c) {
      assert Gap(h, c);
    }
  }

  // ---------------------------------------------------------------------------------------
  // malloc's two ways of taking a block, and memory from sbrk.

  /** Free block p, which fits exactly, leaves the ring. */
  ghost function Taken(h: Heap, prev: nat, p: nat): Heap
    requires p in h.ptr
  {
    h.(free := h.free - {p}, ptr := h.ptr[prev := h.ptr[p]], live := h.live + {p})
  }

  ghost predicate Follows(base: nat, h: Heap, prev: nat, p: nat) {
    p in h.free && prev in h.free + {base} && prev in h.ptr && p in h.ptr && h.ptr[prev] == p && prev < p
  }

  lemma TakenSound(base: nat, h: Heap, h': Heap, prev: nat, p: nat)
    requires Sound(base, h) && Follows(base, h, prev, p) && h' == Taken(h, prev, p)
    ensures Sound(base, h')
  {
    NextFree(base, h, p);
    UnlinkRing(h.free + {base}, base, h.ptr, prev, p);
    assert h.free + {base} - {p} == h'.free + {base};
    assert h'.free + h'.live == h.free + h.live;
  }

  lemma TakenGaps(base: nat, h: Heap, h': Heap, prev: nat, p: nat)
    requires Coalesced(base, h, {}) && Follows(base, h, prev, p) && h' == Taken(h, prev, p)
    requires base <= prev && (p < h.ptr[p] || h.ptr[p] == base)
    ensures Coalesced(base, h', {})
  {
    assert Gap(h, p) && Gap(h, prev);
    forall c | c in h'.free + {base} ensures Gap(h', c) {
      assert Gap(h, c);
    }
  }

  /** The last n units of the larger free block p become a block of their own. */
  ghost function TailTaken(h: Heap, p: nat, n: nat): Heap
    requires p in h.size && n <= h.size[p]
  {
    var q := p + h.size[p] - n;
    h.(size := h.size[p := h.size[p] - n][q := n], live := h.live + {q}, owner := Cut(h.owner, p, q))
  }

  lemma TailTakenSound(base: nat, h: Heap, h': Heap, p: nat, n: nat)
    requires Sound(base, h) && p in h.free && p in h.size && 0 < n < h.size[p] && h' == TailTaken(h, p, n)
    ensures Sound(base, h')
  {
    NextFree(base, h, p);
    TailTiles(h, h', p, n, p + h.size[p] - n);
    TailParts(base, h, h', p, p + h.size[p] - n);
  }

  lemma TailTiles(h: Heap, h': Heap, p: nat, n: nat, q: nat)
    requires Tiled(h.size, h.free + h.live, h.owner) && p in h.free && p in h.size && 0 < n < h.size[p] &&
             q == p + h.size[p] - n
    requires h' == TailTaken(h, p, n)
    ensures q !in h.free + h.live && Tiled(h'.size, h.free + h.live + {q}, h'.owner) && h'.owner.Keys == h.owner.Keys
  {
    CutTiled(h.size, h'.size, h.free + h.live, h.free + h.live + {q}, h.owner, h'.owner, p, n, q);
  }

  lemma TailParts(base: nat, h: Heap, h': Heap, p: nat, q: nat)
    requires h.free !! h.live && q !in h.free + h.live && Ring(h.free + {base}, base, h.ptr) &&
             forall x | x in h.owner :: base < x
    requires h'.free == h.free && h'.ptr == h.ptr && h'.live == h.live + {q} && h'.owner.Keys == h.owner.Keys
    requires base in h'.size && h'.size[base] == 0 && Tiled(h'.size, h.free + h.live + {q}, h'.owner)
    ensures Sound(base, h')
  {
    assert h.free + h.live + {q} == h'.free + h'.live;
    assert forall x | x in h'.owner :: x in h'.owner.Keys;
  }

  lemma TailGaps(base: nat, h: Heap, h': Heap, p: nat, n: nat)
    requires Coalesced(base, h, {}) && p in h.free && p in h.size && 0 < n < h.size[p] && h' == TailTaken(h, p, n)
    requires base < p && p + h.size[p] - n !in h.free
    ensures Coalesced(base, h', {})
  {
    forall c | c in h'.free + {base} ensures Gap(h', c) {
      assert Gap(h, c);
    }
  }

  /** Memory obtained from sbrk, as a block about to be freed. */
  ghost function Supplied(h: Heap, a: nat, n: nat): Heap {
    h.(size := h.size[a := n], live := h.live + {a}, owner := Grown(h.owner, a, n))
  }

  lemma SuppliedSound(base: nat, h: Heap, h': Heap, a: nat, n: nat)
    requires Sound(base, h) && n > 0 && base < a && (forall x | x in h.owner :: x < a) && h' == Supplied(h, a, n)
    ensures Sound(base, h') && a !in h.live && a !in h.free && h'.owner.Keys == h.owner.Keys + Units(a, n)
  {
    GrowTiled(h.size, h.free + h.live, h.owner, a, n);
    assert h.free + h.live + {a} == h'.free + h'.live;
  }

  lemma SuppliedGaps(base: nat, h: Heap, h': Heap, a: nat, n: nat)
    requires Coalesced(base, h, {}) && a !in h.free && a != base && h' == Supplied(h, a, n)
    ensures Coalesced(base, h', {})
  {
    forall c | c in h'.free + {base} ensures Gap(h', c) {
      assert Gap(h, c);
    }
  }

  // ---------------------------------------------------------------------------------------
  // Runs of the allocator's single steps.

  datatype Event =
    | Supply(a: nat, n: nat)      // sbrk
    | Insert(p: nat, bp: nat)     // free puts bp after p
    | Merge(a: nat, b: nat)       // free joins two blocks that touch
    | Take(prev: nat, p: nat)     // malloc takes a whole block
    | TakeTail(p: nat, n: nat)    // malloc takes the end of one

  ghost predicate Enabled(base: nat, h: Heap, e: Event) {
    match e
    case Supply(a, n) => n > 0 && base < a && forall x | x in h.owner :: x < a
    case Insert(p, bp) => bp in h.live && IsPrev(base, h, p, bp) && p in h.ptr
    case Merge(a, b) => Touching(h, a, b)
    case Take(prev, p) => Follows(base, h, prev, p)
    case TakeTail(p, n) => p in h.free && p in h.size && 0 < n < h.size[p]
  }

  ghost function Next(base: nat, h: Heap, e: Event): Heap
    requires Enabled(base, h, e)
  {
    match e
    case Supply(a, n) => Supplied(h, a, n)
    case Insert(p, bp) => Inserted(h, p, bp)
    case Merge(a, b) => Merged(h, a, b)
    case Take(prev, p) => Taken(h, prev, p)
    case TakeTail(p, n) => TailTaken(h, p, n)
  }

  lemma StepSound(base: nat, h: Heap, e: Event)
    requires Sound(base, h) && Enabled(base, h, e)
    ensures Sound(base, Next(base, h, e))
  {
    match e
    case Supply(a, n) => SuppliedSound(base, h, Supplied(h, a, n), a, n);
    case Insert(p, bp) => InsertedSound(base, h, Inserted(h, p, bp), p, bp);
    case Merge(a, b) => MergedSound(base, h, Merged(h, a, b), a, b);
    case Take(prev, p) => TakenSound(base, h, Taken(h, prev, p), prev, p);
    case TakeTail(p, n) => TailTakenSound(base, h, TailTaken(h, p, n), p, n);
  }

  datatype Trace = Start | Then(before: Trace, e: Event)

  ghost function Empty(base: nat): Heap { Heap({}, map[base := base], map[base := 0], {}, map[]) }

  ghost predicate Reached(base: nat, tr: Trace, h: Heap)
    decreases tr
  {
    match tr
    case Start => h == Empty(base)
    case Then(before, e) => exists h1 :: Reached(base, before, h1) && Enabled(base, h1, e) && h == Next(base, h1, e)
  }

  /** In every run, the free list is a ring in address order, and free blocks and blocks handed
      out tile exactly the memory obtained. */
  lemma {:induction false} RunSound(base: nat, tr: Trace, h: Heap)
    requires Reached(base, tr, h)
    ensures Sound(base, h)
  {
    if tr.Then? {
      var h1 :| Reached(base, tr.before, h1) && Enabled(base, h1, tr.e) && h == Next(base, h1, tr.e);
      RunSound(base, tr.before, h1);
      StepSound(base, h1, tr.e);
    }
  }

  /** Blocks handed out never overlap, nor does one overlap a free block. */
  lemma BlocksApart(base: nat, tr: Trace, h: Heap, a: nat, b: nat)
    requires Reached(base, tr, h) && a in h.free + h.live && b in h.free + h.live && a < b
    ensures a in h.size && h.size[a] > 0 && a + h.size[a] <= b && !(a in h.free && a in h.live)
  {
    RunSound(base, tr, h);
    Apart(h.size, h.free + h.live, h.owner, a, b);
  }

  /** Every unit of memory obtained is in a free block or in one handed out. */
  lemma UnitHasBlock(base: nat, tr: Trace, h: Heap, x: nat) returns (a: nat)
    requires Reached(base, tr, h) && x in h.owner
    ensures a in h.free + h.live && a in h.size && a <= x < a + h.size[a]
  {
    RunSound(base, tr, h);
    a := h.owner[x];
  }

  // What the code may rely on.

  lemma FreeShape(base: nat, tr: Trace, h: Heap, a: nat)
    requires Reached(base, tr, h) && a in h.free + {base}
    ensures base <= a && a in h.ptr && a in h.size && h.ptr[a] in h.free + {base} && h.ptr[a] in h.ptr &&
            h.ptr[a] in h.size
    ensures a == base <==> h.size[a] == 0
    ensures a == base <==> a !in h.free
    ensures if a < h.ptr[a] then h.ptr[a] in h.free && a + h.size[a] <= h.ptr[a] else h.ptr[a] == base
  {
    RunSound(base, tr, h);
    BaseShape(base, h);
    assert IsNext(h.free + {base}, base, a, h.ptr[a]);
    if a in h.free { NextFree(base, h, a); }
    if a < h.ptr[a] { RingApart(base, h, a); }
    if h.ptr[a] in h.free { BlockShape(base, h, h.ptr[a]); }
  }

  lemma LiveShape(base: nat, tr: Trace, h: Heap, a: nat)
    requires Reached(base, tr, h) && a in h.live
    ensures base < a && a in h.size && h.size[a] > 0 && a !in h.free
  {
    RunSound(base, tr, h);
    BlockShape(base, h, a);
  }

  lemma RingShape(base: nat, tr: Trace, h: Heap)
    requires Reached(base, tr, h)
    ensures Ring(h.free + {base}, base, h.ptr)
  {
    RunSound(base, tr, h);
  }

  // ---------------------------------------------------------------------------------------
  // Going round the ring.

  /** The blocks met on the way round from p to q, both included. */
  ghost function Ahead(s: set<nat>, p: nat, q: nat): set<nat> {
    if p <= q then set c | c in s && p <= c <= q else set c | c in s && (p <= c || c <= q)
  }

  lemma AheadStep(s: set<nat>, base: nat, ptr: map<nat, nat>, p: nat, q: nat)
    requires Ring(s, base, ptr) && p in s && q in s && p != q
    ensures ptr[p] in s && p in Ahead(s, p, q) && Ahead(s, ptr[p], q) == Ahead(s, p, q) - {p}
    ensures |Ahead(s, ptr[p], q)| < |Ahead(s, p, q)|
  {
    assert IsNext(s, base, p, ptr[p]);
    assert Ahead(s, ptr[p], q) == Ahead(s, p, q) - {p};
    Fewer(Ahead(s, ptr[p], q), Ahead(s, p, q), p);
  }

  /** Starting behind q, everything is ahead. */
  lemma AheadAll(s: set<nat>, base: nat, ptr: map<nat, nat>, q: nat)
    requires Ring(s, base, ptr) && q in s
    ensures Ahead(s, ptr[q], q) == s
  {
    assert IsNext(s, base, q, ptr[q]);
    assert ptr[q] > q || ptr[q] == base;
    if ptr[q] > q {
      assert forall c | c in s :: ptr[q] <= c || c <= q;
    } else {
      assert forall c | c in s :: ptr[q] <= c <= q;
    }
  }

  lemma AheadLast(s: set<nat>, q: nat)
    requires q in s
    ensures Ahead(s, q, q) == {q}
  {
  }

  lemma Fewer(a: set<nat>, b: set<nat>, x: nat)
    requires a <= b && x in b && x !in a
    ensures |a| < |b|
  {
    assert a + (b - a) == b && x in b - a;
  }

  /** There is a place in the ring for every block above base. */
  lemma PrevExists(s: set<nat>, base: nat, bp: nat) returns (q: nat)
    requires base in s && base < bp && bp !in s
    ensures q in s && q < bp && forall c | c in s :: c <= q || bp < c
    decreases |s|
  {
    if forall c | c in s :: c <= base || bp < c {
      q := base;
    } else {
      var c :| c in s && base < c && c < bp;
      Fewer(s - {base}, s, base);
      q := PrevExists(s - {base}, c, bp);
      forall d | d in s ensures d <= q || bp < d {
        assert c in s - {base} && (d != base ==> d in s - {base});
      }
    }
  }

  // ---------------------------------------------------------------------------------------
  // free, as a whole.

  /** The headers' sizes after free of bp, found to go after p. */
  ghost function SizeAfter(h: Heap, p: nat, bp: nat): map<nat, nat>
    requires p in h.ptr && p in h.size && bp in h.size && h.ptr[p] in h.size
  {
    var s1 := if bp + h.size[bp] == h.ptr[p] then h.size[bp := h.size[bp] + h.size[h.ptr[p]]] else h.size;
    if p + h.size[p] == bp then s1[p := s1[p] + s1[bp]] else s1
  }

  ghost function PtrAfter(h: Heap, p: nat, bp: nat): map<nat, nat>
    requires p in h.ptr && p in h.size && bp in h.size && h.ptr[p] in h.ptr
  {
    var q1 := h.ptr[bp := if bp + h.size[bp] == h.ptr[p] then h.ptr[h.ptr[p]] else h.ptr[p]];
    q1[p := if p + h.size[p] == bp then q1[bp] else bp]
  }

  lemma Reach(base: nat, tr: Trace, h: Heap, e: Event)
    requires Reached(base, tr, h) && Enabled(base, h, e)
    ensures Reached(base, Then(tr, e), Next(base, h, e))
  {
  }

  lemma InsertStep(base: nat, tr: Trace, h: Heap, h': Heap, p: nat, bp: nat)
    requires Reached(base, tr, h) && bp in h.live && IsPrev(base, h, p, bp) && Coalesced(base, h, {}) && p in h.ptr
    requires h' == Inserted(h, p, bp)
    ensures Reached(base, Then(tr, Insert(p, bp)), h') && Coalesced(base, h', {p, bp})
  {
    Reach(base, tr, h, Insert(p, bp));
    InsertedGaps(base, h, h', p, bp);
  }

  lemma UpStep(base: nat, tr: Trace, h: Heap, p: nat, bp: nat) returns (tr': Trace, h': Heap)
    requires Reached(base, tr, h) && bp in h.free && p in h.free + {base} && p < bp && Coalesced(base, h, {p, bp})
    ensures Reached(base, tr', h') && Coalesced(base, h', {p})
    ensures bp in h.size && bp in h.ptr && h.ptr[bp] in h.size && h.ptr[bp] in h.ptr
    ensures h' == if bp + h.size[bp] == h.ptr[bp] then Merged(h, bp, h.ptr[bp]) else h
    ensures bp + h.size[bp] == h.ptr[bp] ==> h.ptr[bp] in h.free && bp < h.ptr[bp]
  {
    FreeShape(base, tr, h, bp);
    var b := h.ptr[bp];
    if bp + h.size[bp] == b {
      tr', h' := Then(tr, Merge(bp, b)), Merged(h, bp, b);
      Reach(base, tr, h, Merge(bp, b));
      RunSound(base, tr, h);
      MergedGaps(base, h, h', bp, b, {p, bp});
      assert {p, bp} - {bp} == {p};
    } else {
      tr', h' := tr, h;
      assert Gap(h, bp);
    }
  }

  lemma DownStep(base: nat, tr: Trace, h: Heap, p: nat, bp: nat) returns (tr': Trace, h': Heap)
    requires Reached(base, tr, h) && bp in h.free && p in h.free + {base} && p in h.ptr && h.ptr[p] == bp && p < bp &&
             Coalesced(base, h, {p})
    ensures Reached(base, tr', h') && Coalesced(base, h', {}) && p in h'.free + {base}
    ensures p in h.size && bp in h.size && bp in h.ptr && h' == if p + h.size[p] == bp then Merged(h, p, bp) else h
  {
    FreeShape(base, tr, h, p);
    FreeShape(base, tr, h, bp);
    if p + h.size[p] == bp {
      tr', h' := Then(tr, Merge(p, bp)), Merged(h, p, bp);
      Reach(base, tr, h, Merge(p, bp));
      RunSound(base, tr, h);
      MergedGaps(base, h, h', p, bp, {p});
      assert {p} - {p} == {};
    } else {
      tr', h' := tr, h;
      assert Gap(h, p);
    }
  }

  /** free keeps the list coalesced and gives back exactly bp's memory. */
  lemma FreeSteps(base: nat, tr: Trace, h: Heap, p: nat, bp: nat) returns (tr': Trace, h': Heap)
    requires Reached(base, tr, h) && bp in h.live && IsPrev(base, h, p, bp) && Coalesced(base, h, {})
    ensures p in h.ptr && p in h.size && bp in h.size && h.ptr[p] in h.ptr && h.ptr[p] in h.size
    ensures Reached(base, tr', h') && Coalesced(base, h', {}) && p in h'.free + {base}
    ensures h'.live == h.live - {bp} && h'.owner.Keys == h.owner.Keys
    ensures h'.size == SizeAfter(h, p, bp) && h'.ptr == PtrAfter(h, p, bp)
  {
    FreeShape(base, tr, h, p);
    LiveShape(base, tr, h, bp);
    var h1 := Inserted(h, p, bp);
    InsertStep(base, tr, h, h1, p, bp);
    var tr2, h2 := UpStep(base, Then(tr, Insert(p, bp)), h1, p, bp);
    tr', h' := DownStep(base, tr2, h2, p, bp);
    FreeMaps(h, h1, h2, h', p, bp);
  }

  /** The headers, step by step and all at once. */
  lemma FreeMaps(h: Heap, h1: Heap, h2: Heap, h3: Heap, p: nat, bp: nat)
    requires p in h.ptr && p in h.size && bp in h.size && h.ptr[p] in h.ptr && h.ptr[p] in h.size && bp in h.live &&
             p < bp
    requires h1 == Inserted(h, p, bp) && bp in h1.ptr && h1.ptr[bp] in h1.ptr && h1.ptr[bp] in h1.size
    requires bp + h1.size[bp] == h1.ptr[bp] ==> bp < h1.ptr[bp]
    requires h2 == if bp + h1.size[bp] == h1.ptr[bp] then Merged(h1, bp, h1.ptr[bp]) else h1
    requires p in h2.size && bp in h2.size && bp in h2.ptr &&
             h3 == if p + h2.size[p] == bp then Merged(h2, p, bp) else h2
    ensures h3.live == h.live - {bp} && h3.owner.Keys == h.owner.Keys
    ensures h3.size == SizeAfter(h, p, bp) && h3.ptr == PtrAfter(h, p, bp)
  {
    assert h1.size == h.size && h1.ptr[bp] == h.ptr[p];
    assert h2.size[p] == h.size[p];
  }

  /** The blocks in `live` have the sizes they had. */
  ghost predicate KeptSizes(live: set<nat>, size: map<nat, nat>, size': map<nat, nat>) {
    forall c | c in live :: c in size && c in size' && size'[c] == size[c]
  }

  lemma LiveSizes(base: nat, tr: Trace, h: Heap, p: nat, bp: nat)
    requires Reached(base, tr, h) && bp in h.live && p in h.free + {base} && bp in h.size && p in h.size &&
             p in h.ptr && h.ptr[p] in h.size
    ensures KeptSizes(h.live - {bp}, h.size, SizeAfter(h, p, bp))
  {
    RunSound(base, tr, h);
    BaseShape(base, h);
  }

  /** The memory freed is in the block after which it went, or in the next one. */
  lemma RoomAfter(base: nat, tr: Trace, h: Heap, p: nat, bp: nat)
    requires Reached(base, tr, h) && bp in h.live && p in h.free + {base} && bp in h.size && p in h.size &&
             p in h.ptr && p < bp
    requires h.ptr[p] in h.size && h.ptr[p] in h.ptr
    ensures var s', q' := SizeAfter(h, p, bp), PtrAfter(h, p, bp);
            p in q' && p in s' && q'[p] in s' && (s'[p] >= h.size[bp] || s'[q'[p]] >= h.size[bp])
    ensures bp + h.size[bp] == h.ptr[p] ==> bp < h.ptr[p]
  {
    FreeShape(base, tr, h, p);
    FreeShape(base, tr, h, h.ptr[p]);
    LiveShape(base, tr, h, bp);
  }

  lemma AllLive(base: nat, tr: Trace, h: Heap)
    requires Reached(base, tr, h)
    ensures KeptSizes(h.live, h.size, h.size)
  {
    RunSound(base, tr, h);
  }

  lemma SupplyStep(base: nat, tr: Trace, h: Heap, h': Heap, a: nat, n: nat)
    requires Reached(base, tr, h) && Coalesced(base, h, {}) && n > 0 && base < a &&
             (forall x | x in h.owner :: x < a) && h' == Supplied(h, a, n)
    ensures Reached(base, Then(tr, Supply(a, n)), h') && Coalesced(base, h', {}) && a !in h.live
    ensures h'.owner.Keys == h.owner.Keys + Units(a, n) && KeptSizes(h.live, h.size, h'.size) &&
            (forall x | x in h'.owner :: x < a + n)
  {
    SupplyIsNew(base, tr, h, h', a, n);
    assert Coalesced(base, h', {}) by { SuppliedGaps(base, h, h', a, n); }
    Reach(base, tr, h, Supply(a, n));
  }

  lemma SupplyIsNew(base: nat, tr: Trace, h: Heap, h': Heap, a: nat, n: nat)
    requires Reached(base, tr, h) && n > 0 && base < a && (forall x | x in h.owner :: x < a) && h' == Supplied(h, a, n)
    ensures a !in h.live && a !in h.free && h'.owner.Keys == h.owner.Keys + Units(a, n)
    ensures KeptSizes(h.live, h.size, h'.size) && (forall x | x in h'.owner :: x < a + n)
  {
    RunSound(base, tr, h);
    SuppliedSound(base, h, h', a, n);
    assert forall x | x in h'.owner :: x in h'.owner.Keys;
  }

  lemma TakeStep(base: nat, tr: Trace, h: Heap, h': Heap, prev: nat, p: nat)
    requires Reached(base, tr, h) && Coalesced(base, h, {}) && Follows(base, h, prev, p) && h' == Taken(h, prev, p)
    ensures Reached(base, Then(tr, Take(prev, p)), h') && Coalesced(base, h', {})
    ensures p !in h.live && KeptSizes(h.live, h.size, h.size)
  {
    FreeShape(base, tr, h, p);
    FreeShape(base, tr, h, prev);
    Reach(base, tr, h, Take(prev, p));
    TakenGaps(base, h, h', prev, p);
    RunSound(base, tr, h);
  }

  lemma TailStep(base: nat, tr: Trace, h: Heap, h': Heap, p: nat, n: nat, q: nat)
    requires Reached(base, tr, h) && Coalesced(base, h, {}) && p in h.free && p in h.size && 0 < n < h.size[p]
    requires q == p + h.size[p] - n && h' == TailTaken(h, p, n)
    ensures Reached(base, Then(tr, TakeTail(p, n)), h') && Coalesced(base, h', {})
    ensures q !in h.live && h'.owner.Keys == h.owner.Keys && KeptSizes(h.live, h.size, h'.size)
  {
    TailIsNew(base, tr, h, h', p, n, q);
    assert Coalesced(base, h', {}) by { TailGaps(base, h, h', p, n); }
    TailSizes(base, tr, h, h', p, q);
    Reach(base, tr, h, TakeTail(p, n));
  }

  lemma TailIsNew(base: nat, tr: Trace, h: Heap, h': Heap, p: nat, n: nat, q: nat)
    requires Reached(base, tr, h) && p in h.free && p in h.size && 0 < n < h.size[p] && q == p + h.size[p] - n &&
             h' == TailTaken(h, p, n)
    ensures base < p && q !in h.free && q !in h.live && h'.owner.Keys == h.owner.Keys
  {
    FreeShape(base, tr, h, p);
    RunSound(base, tr, h);
    TailTiles(h, h', p, n, q);
  }

  lemma TailSizes(base: nat, tr: Trace, h: Heap, h': Heap, p: nat, q: nat)
    requires Reached(base, tr, h) && p in h.free && q !in h.live
    requires forall c | c in h.size && c != p && c != q :: c in h'.size && h'.size[c] == h.size[c]
    ensures KeptSizes(h.live, h.size, h'.size)
  {
    RunSound(base, tr, h);
  }

  // The search of malloc.

  ghost predicate RoomAt(size: map<nat, nat>, a: nat, n: nat) { a in size && size[a] >= n }

  /** A free block with n units is still ahead. */
  ghost predicate OnlyAhead(base: nat, h: Heap, p: nat, q: nat, n: nat) {
    forall a | a in h.free && RoomAt(h.size, a, n) :: a in Ahead(h.free + {base}, p, q)
  }

  lemma WalkStart(base: nat, tr: Trace, h: Heap, q: nat, n: nat)
    requires Reached(base, tr, h) && q in h.free + {base}
    ensures q in h.ptr && h.ptr[q] in h.free + {base} && h.ptr[q] in h.size && OnlyAhead(base, h, h.ptr[q], q, n)
  {
    FreeShape(base, tr, h, q);
    RingShape(base, tr, h);
    AheadAll(h.free + {base}, base, h.ptr, q);
  }

  lemma WalkStep(base: nat, tr: Trace, h: Heap, p: nat, q: nat, n: nat)
    requires Reached(base, tr, h) && p in h.free + {base} && q in h.free + {base} && p != q && !RoomAt(h.size, p, n)
    ensures p in h.ptr && h.ptr[p] in h.free + {base} && h.ptr[p] in h.size
    ensures OnlyAhead(base, h, p, q, n) ==> OnlyAhead(base, h, h.ptr[p], q, n)
    ensures |Ahead(h.free + {base}, h.ptr[p], q)| < |Ahead(h.free + {base}, p, q)|
  {
    FreeShape(base, tr, h, p);
    RingShape(base, tr, h);
    AheadStep(h.free + {base}, base, h.ptr, p, q);
  }

  lemma NoneFits(base: nat, h: Heap, q: nat, n: nat)
    requires q in h.free + {base} && !RoomAt(h.size, q, n) && OnlyAhead(base, h, q, q, n)
    ensures forall a | a in h.free && a in h.size :: h.size[a] < n
  {
    AheadLast(h.free + {base}, q);
    forall a | a in h.free && a in h.size ensures h.size[a] < n {
      assert RoomAt(h.size, a, n) <==> h.size[a] >= n;
    }
  }

  // The search of free.

  lemma LastIsPrev(base: nat, tr: Trace, h: Heap, p: nat, bp: nat)
    requires Reached(base, tr, h) && p in h.free + {base} && p in h.ptr && base < bp && p >= h.ptr[p] &&
             (bp > p || bp < h.ptr[p])
    ensures IsPrev(base, h, p, bp)
  {
    RingShape(base, tr, h);
    assert IsNext(h.free + {base}, base, p, h.ptr[p]);
  }

  lemma BetweenIsPrev(base: nat, tr: Trace, h: Heap, p: nat, bp: nat)
    requires Reached(base, tr, h) && p in h.free + {base} && p in h.ptr && p < bp < h.ptr[p]
    ensures IsPrev(base, h, p, bp)
  {
    RingShape(base, tr, h);
    assert IsNext(h.free + {base}, base, p, h.ptr[p]);
  }

  /** The search stops where it should. */
  lemma PrevStops(base: nat, tr: Trace, h: Heap, p: nat, bp: nat, q: nat)
    requires Reached(base, tr, h) && p in h.free + {base} && p in h.ptr && IsPrev(base, h, q, bp) &&
             bp !in h.free + {base}
    requires !(bp > p && bp < h.ptr[p]) && !(p >= h.ptr[p] && (bp > p || bp < h.ptr[p]))
    ensures p != q
  {
    RingShape(base, tr, h);
    assert IsNext(h.free + {base}, base, p, h.ptr[p]);
  }
}

/** The allocator's code (user/umalloc.c). */
module Umalloc {
  import opened FreeBlocks

  const MIN_UNITS := 4096         // morecore asks for at least this much
  const HEADER := 16              // bytes in a unit

  /** The units malloc needs for nbytes: those that hold them, and a header. */
  function Nunits(nbytes: nat): (n: nat)
    ensures (n - 1) * HEADER >= nbytes > (n - 2) * HEADER
  {
    (nbytes + HEADER - 1) / HEADER + 1
  }

  /** The bytes morecore asks for nu units, as sbrk's int parameter receives them. */
  function SbrkArgument(nu: nat): int {
    var bytes := nu * HEADER % 0x1_0000_0000;
    if bytes < 0x8000_0000 then bytes else bytes - 0x1_0000_0000
  }

  /** Below this many units, and only then, sbrk is asked for all of them. */
  const UNITS_LIMIT := 0x800_0000

  lemma SbrkArgumentExact(nu: nat)
    ensures nu < UNITS_LIMIT <==> SbrkArgument(nu) == nu * HEADER
    ensures nu >= UNITS_LIMIT ==> SbrkArgument(nu) < nu * HEADER
  {
    if nu < UNITS_LIMIT {
      assert nu * HEADER < 0x8000_0000;
    } else {
      assert nu * HEADER >= 0x8000_0000;
    }
  }

  /** A request for all of the 32-bit range has sbrk asked for one unit. */
  lemma LargestRequest()
    ensures SbrkArgument(Nunits(0xFFFF_FFFF)) == HEADER
  {
  }

  /** How malloc and morecore end: with memory, without, or with a header written that claims memory
      sbrk was not asked for, after which nothing is promised. */
  datatype Outcome = Given | Refused | Overrun

  lemma KeysBelow(owner: map<nat, nat>, owner': map<nat, nat>, end: nat)
    requires owner'.Keys == owner.Keys && forall x | x in owner :: x < end
    ensures forall x | x in owner' :: x < end
  {
    forall x | x in owner' ensures x < end {
      assert x in owner'.Keys;
    }
  }

  class Allocator {
    const base: nat               // address of `base`, below the memory obtained from sbrk
    var ptr: map<nat, nat>        // the headers
    var size: map<nat, nat>
    var freep: nat
    var ready: bool               // freep has been set
    var brk: nat                  // end of the memory obtained

    ghost var free: set<nat>
    ghost var live: set<nat>
    ghost var owner: map<nat, nat>
    ghost var trace: Trace

    ghost function Abs(): Heap
      reads this
    {
      Heap(free, ptr, size, live, owner)
    }

    ghost predicate Running()
      reads this
    {
      && ready && base < brk && Reached(base, trace, Abs()) && freep in free + {base}
      && forall x | x in owner :: x < brk
    }

    /** Between calls no two neighbouring free blocks are unmerged. */
    ghost predicate Valid()
      reads this
    {
      if ready then Running() && Coalesced(base, Abs(), {})
      else base < brk && free == {} && live == {} && owner == map[] && ptr == map[] && size == map[]
    }

    /** The units of memory obtained from sbrk. */
    ghost function Memory(): set<nat>
      reads this
    {
      owner.Keys
    }

    constructor (base: nat, brk: nat)
      requires base < brk
      ensures Valid() && this.base == base && live == {} && Memory() == {}
    {
      this.base, this.brk, ready, freep := base, brk, false, 0;
      ptr, size := map[], map[];
      free, live, owner, trace := {}, {}, map[], Start;
    }

    /** free's search for the block, or base, after which bp goes. */
    method Find(bp: nat) returns (p: nat)
      requires Running() && base < bp && bp !in free
      ensures IsPrev(base, Abs(), p, bp)
    {
      ghost var s := free + {base};
      RingShape(base, trace, Abs());
      ghost var q := PrevExists(s, base, bp);
      p := freep;
      FreeShape(base, trace, Abs(), p);
      while !(bp > p && bp < ptr[p])
        invariant p in s && p in ptr
        decreases |Ahead(s, p, q)|
      {
        FreeShape(base, trace, Abs(), p);
        if p >= ptr[p] && (bp > p || bp < ptr[p]) {
          LastIsPrev(base, trace, Abs(), p, bp);
          return;
        }
        PrevStops(base, trace, Abs(), p, bp, q);
        AheadStep(s, base, ptr, p, q);
        p := ptr[p];
        FreeShape(base, trace, Abs(), p);
      }
      BetweenIsPrev(base, trace, Abs(), p, bp);
    }

    /** free: bp goes back to the list, joined with what touches it; every other block handed out
        is as it was. */
    method Free(bp: nat)
      requires Valid() && bp in live
      modifies this`ptr, this`size, this`freep, this`free, this`live, this`owner, this`trace
      ensures ready && Valid() && live == old(live) - {bp} && Memory() == old(Memory())
      ensures KeptSizes(live, old(size), size)
      ensures bp in old(size) && HasUnits(old(size)[bp])
    {
      ghost var h := Abs();
      LiveShape(base, trace, h, bp);
      var p := Find(bp);
      ghost var tr', h' := FreeSteps(base, trace, h, p, bp);
      LiveSizes(base, trace, h, p, bp);
      RoomAfter(base, trace, h, p, bp);
      Relink(p, bp);
      free, live, owner, trace := h'.free, h'.live, h'.owner, tr';
      assert forall x | x in owner :: x in owner.Keys;
    }

    /** The second half of free: the headers are set. */
    method Relink(p: nat, bp: nat)
      requires p in ptr && p in size && bp in size && ptr[p] in size && ptr[p] in ptr && p < bp
      requires bp + size[bp] == ptr[p] ==> bp < ptr[p]
      modifies this`ptr, this`size, this`freep
      ensures size == SizeAfter(old(Abs()), p, bp) && ptr == PtrAfter(old(Abs()), p, bp) && freep == p
    {
      if bp + size[bp] == ptr[p] {
        size := size[bp := size[bp] + size[ptr[p]]];
        ptr := ptr[bp := ptr[ptr[p]]];
      } else {
        ptr := ptr[bp := ptr[p]];
      }
      if p + size[p] == bp {
        size := size[p := size[p] + size[bp]];
        ptr := ptr[p := ptr[bp]];
      } else {
        ptr := ptr[p := bp];
      }
      freep := p;
    }

    /** freep, or the block after it, has at least n units. */
    ghost predicate HasUnits(n: nat)
      reads this
    {
      freep in ptr && freep in size && ptr[freep] in size && (size[freep] >= n || size[ptr[freep]] >= n)
    }

    /** sbrk of a positive amount: memory above all that was obtained before, if the kernel has
        it to give. */
    method Sbrk(bytes: int) returns (ok: bool, a: nat)
      requires bytes % HEADER == 0
      modifies this`brk
      ensures if ok then old(brk) <= a && brk == Moved(a, bytes / HEADER) else brk == old(brk)
    {
      ok := *;
      a := brk;
      if ok {
        var others: int := *;     // what was obtained other than through malloc
        if others > 0 { a := a + others; }
        brk := Moved(a, bytes / HEADER);
      }
    }

    /** The end after it has moved, which it does not if that is below nothing. */
    static function Moved(a: nat, units: int): nat { if a + units >= 0 then a + units else a }

    /** morecore: memory from sbrk goes on the free list, if sbrk was asked for all of it. */
    method Morecore(nu: nat) returns (r: Outcome, a: nat)
      requires Valid() && ready && 0 < nu
      modifies this
      ensures r.Given? ==> nu < UNITS_LIMIT && ready && Valid() && live == old(live) && KeptSizes(live, old(size), size)
      ensures r.Given? ==> HasUnits(nu) && old(Memory()) < Memory()
      ensures r.Refused? ==> ready && Valid() && Abs() == old(Abs()) && freep == old(freep)
      ensures r.Overrun? ==> nu >= UNITS_LIMIT && size == old(size)[a := nu] && a + nu > brk
    {
      var n := if nu < MIN_UNITS then MIN_UNITS else nu;
      var ok;
      SbrkArgumentExact(n);
      ok, a := Sbrk(SbrkArgument(n));
      if !ok { return Refused, a; }
      if n >= UNITS_LIMIT {
        size := size[a := n];
        return Overrun, a;
      }
      AllLive(base, trace, Abs());
      TakeIn(a, n);
      Free(a);
      r := Given;
    }

    /** The header written over the memory sbrk returned: a block in use, until free adds it. */
    method TakeIn(a: nat, n: nat)
      requires Valid() && ready && n > 0 && base < a && a + n <= brk && forall x | x in owner :: x < a
      modifies this`size, this`live, this`owner, this`trace
      ensures Valid() && a !in old(live) && live == old(live) + {a} && a in size && size[a] == n
      ensures KeptSizes(old(live), old(size), size) && Memory() == old(Memory()) + Units(a, n)
    {
      ghost var h := Abs();
      size := size[a := n];
      live, owner := live + {a}, Grown(owner, a, n);
      SupplyStep(base, trace, h, Abs(), a, n);
      trace := Then(trace, Supply(a, n));
    }

    /** malloc takes the whole of a block found. */
    method TakeWhole(prevp: nat, p: nat)
      requires Valid() && ready && Follows(base, Abs(), prevp, p)
      modifies this`ptr, this`freep, this`free, this`live, this`trace
      ensures ready && Valid() && p !in old(live) && live == old(live) + {p} && KeptSizes(old(live), size, size)
    {
      ghost var h := Abs();
      ptr := ptr[prevp := ptr[p]];
      free, live := free - {p}, live + {p};
      TakeStep(base, trace, h, Abs(), prevp, p);
      trace := Then(trace, Take(prevp, p));
      freep := prevp;
    }

    /** malloc takes the end of a larger block found. */
    method TakeEnd(prevp: nat, p: nat, n: nat) returns (q: nat)
      requires Valid() && ready && p in free && prevp in free + {base} && p in size && 0 < n < size[p]
      modifies this`size, this`freep, this`live, this`owner, this`trace
      ensures ready && Valid() && q !in old(live) && live == old(live) + {q} && Memory() == old(Memory())
      ensures q in size && size[q] == n && KeptSizes(old(live), old(size), size)
    {
      ghost var h := Abs();
      size := size[p := size[p] - n];
      q := p + size[p];
      size := size[q := n];
      live, owner := live + {q}, Cut(owner, p, q);
      TailStep(base, trace, h, Abs(), p, n, q);
      trace := Then(trace, TakeTail(p, n));
      freep := prevp;
      KeysBelow(h.owner, owner, brk);
    }

    /** Some free block has at least n units. */
    ghost predicate Fits(n: nat)
      reads this
    {
      exists a | a in free && a in size :: size[a] >= n
    }

    /** malloc's choice once a block with room is found. */
    method TakeBlock(prevp: nat, p: nat, n: nat) returns (addr: nat)
      requires Valid() && ready && prevp in free + {base} && prevp in ptr && ptr[prevp] == p && p in size &&
               size[p] >= n > 0
      modifies this`ptr, this`size, this`freep, this`free, this`live, this`owner, this`trace
      ensures ready && Valid() && addr !in old(live) && live == old(live) + {addr} && Memory() == old(Memory())
      ensures addr in size && size[addr] == n && KeptSizes(old(live), old(size), size) && old(Fits(n))
    {
      FreeShape(base, trace, Abs(), prevp);
      FreeShape(base, trace, Abs(), p);
      if size[p] == n {
        TakeWhole(prevp, p);
        addr := p;
      } else {
        addr := TakeEnd(prevp, p, n);
      }
    }

    /** The first call makes base the only member of the list. */
    method Init()
      requires Valid()
      modifies this`ptr, this`size, this`freep, this`ready, this`trace
      ensures ready && Valid() && KeptSizes(live, old(size), size) && (old(ready) ==> size == old(size))
    {
      if !ready {
        ptr, size, freep, ready := map[base := base], map[base := 0], base, true;
        trace := Start;
      } else {
        AllLive(base, trace, Abs());
      }
    }

    /** malloc: a block of nbytes and a header, apart from every block handed out before; memory
        is asked for only if no free block has room, and only then can it fail.  From 2^27 units on it
        cannot succeed so, and if sbrk does, the block's header runs over the memory. */
    method Malloc(nbytes: nat) returns (r: Outcome, addr: nat)
      requires Valid()
      modifies this
      ensures !r.Overrun? ==> ready && Valid() && KeptSizes(old(live), old(size), size) && old(Memory()) <= Memory()
      ensures r.Given? ==>
                addr !in old(live) && live == old(live) + {addr} && addr in size && size[addr] == Nunits(nbytes)
      ensures r.Refused? ==> live == old(live) && Memory() == old(Memory())
      ensures old(Fits(Nunits(nbytes))) ==> r.Given? && Memory() == old(Memory())
      ensures !old(Fits(Nunits(nbytes))) ==> if Nunits(nbytes) < UNITS_LIMIT then !r.Overrun? else !r.Given?
      ensures r.Overrun? ==> addr in size && size[addr] == Nunits(nbytes) && addr + size[addr] > brk
    {
      var n := Nunits(nbytes);
      Init();
      r, addr := Search(n);
    }

    /** malloc's loop. */
    method Search(n: nat) returns (r: Outcome, addr: nat)
      requires Valid() && ready && 0 < n
      modifies this
      ensures !r.Overrun? ==> ready && Valid() && KeptSizes(old(live), old(size), size) && old(Memory()) <= Memory()
      ensures r.Given? ==> addr !in old(live) && live == old(live) + {addr} && addr in size && size[addr] == n
      ensures r.Refused? ==> live == old(live) && Memory() == old(Memory())
      ensures old(Fits(n)) ==> r.Given? && Memory() == old(Memory())
      ensures !old(Fits(n)) ==> if n < UNITS_LIMIT then !r.Overrun? else !r.Given?
      ensures r.Overrun? ==> addr in size && size[addr] == n && addr + size[addr] > brk
    {
      ghost var grown := false;
      AllLive(base, trace, Abs());
      WalkStart(base, trace, Abs(), freep, n);
      var prevp := freep;
      var p := ptr[prevp];
      while true
        invariant Valid() && ready && OnRing(prevp, p)
        invariant live == old(live) && KeptSizes(live, old(size), size) && old(Memory()) <= Memory()
        invariant grown ==> !old(Fits(n)) && n < UNITS_LIMIT && (size[p] >= n || RoomAt(size, freep, n))
        invariant !grown ==> Abs() == old(Abs()) && OnlyAhead(base, Abs(), p, freep, n)
        decreases !grown, |Ahead(free + {base}, p, freep)|
      {
        if size[p] >= n {
          addr := TakeBlock(prevp, p, n);
          return Given, addr;
        }
        if p == freep {
          NoneFits(base, Abs(), p, n);
          r, addr := Morecore(n);
          if !r.Given? { return; }
          grown := true;
          p := freep;
          WalkStart(base, trace, Abs(), p, n);
        } else {
          WalkStep(base, trace, Abs(), p, freep, n);
        }
        prevp := p;
        p := ptr[p];
      }
    }

    ghost predicate OnRing(prevp: nat, p: nat)
      reads this
    {
      prevp in free + {base} && prevp in ptr && ptr[prevp] == p && p in free + {base} && p in size
    }
  }
}
