/** Three-level page tables and the physical pages they are made of (kernel/vm.c,
    kernel/kalloc.c), in the Sv39 format of section 4.4 of the RISC-V Privileged Architecture,
    version 20211203.

    A page in use is known by its place: the page table (by its root page) it belongs to, its
    level (3 for the root, 2 and 1 for the tables below it, 0 for a user page) and its index in
    that level, so that entry i of the table at index x leads to index 512 * x + i below. */
module PageTable {
  import opened Common
  import opened WrapArith

  const ENTRIES := 512
  const PGSIZE := 4096
  const MAXVPN := 0x400_0000      // MAXVA / PGSIZE


  /** The ten flag bits of an entry. */
  type Perm = x: nat | x < 1024

  datatype Place = Place(root: nat, lvl: nat, idx: nat)

  /** The physical pages: the free list, the contents of those that are page tables and those
      that hold bytes, the places of those in use, and those allocated but not placed yet. */
  datatype Mem = Mem(free: seq<nat>, ptes: map<nat, seq<nat>>, bytes: map<nat, seq<Byte>>,
                     own: map<nat, Place>, at: map<Place, nat>, held: set<nat>)

  // ---------------------------------------------------------------------------------------
  // Entries: a page number above ten bits of flags.

  const PTE_V := 1
  const PTE_R := 2
  const PTE_W := 4
  const PTE_X := 8
  const PTE_U := 16

  function Ppn(e: nat): nat { e / 1024 }

  function Flags(e: nat): nat { e % 1024 }

  predicate IsValid(e: nat) { e % 2 == 1 }

  /** Some of R, W and X. */
  predicate IsLeaf(e: nat) { e / 2 % 8 != 0 }

  predicate IsUser(e: nat) { e / 16 % 2 == 1 }

  predicate CanRead(e: nat) { e / 2 % 2 == 1 }

  predicate CanWrite(e: nat) { e / 4 % 2 == 1 }

  predicate CanRun(e: nat) { e / 8 % 2 == 1 }

  /** PA2PTE(pa) | perm | PTE_V. */
  function MakePte(ppn: nat, perm: Perm): nat
  {
    1024 * ppn + (if perm % 2 == 1 then perm else perm + 1)
  }

  /** What an entry says is what it was made of. */
  lemma MadePte(ppn: nat, perm: Perm)
    ensures var e := MakePte(ppn, perm);
            Ppn(e) == ppn && IsValid(e) && (IsLeaf(e) <==> IsLeaf(perm)) && (IsUser(e) <==> IsUser(perm)) &&
              Flags(e) / 2 == perm / 2
  {
    var e, f := MakePte(ppn, perm), if perm % 2 == 1 then perm else perm + 1;
    DivModUnique(e, 1024, ppn, f);
    DivModUnique(e, 2, 512 * ppn + f / 2, 1);
    DivModUnique(512 * ppn + f / 2, 8, 64 * ppn + f / 2 / 8, f / 2 % 8);
    DivModUnique(e, 16, 64 * ppn + f / 16, f % 16);
    DivModUnique(64 * ppn + f / 16, 2, 32 * ppn + f / 16 / 2, f / 16 % 2);
  }

  // ---------------------------------------------------------------------------------------
  // Places.

  /** Index, in level l, of the table or page on the way to virtual page v. */
  function Idx(v: nat, l: nat): nat {
    if l == 0 then v else Idx(v, l - 1) / ENTRIES
  }

  function At(r: nat, l: nat, v: nat): Place { Place(r, l, Idx(v, l)) }

  function Child(pl: Place, i: nat): Place
    requires pl.lvl > 0
  {
    Place(pl.root, pl.lvl - 1, ENTRIES * pl.idx + i)
  }

  function Parent(pl: Place): Place { Place(pl.root, pl.lvl + 1, pl.idx / ENTRIES) }

  lemma ChildOfParent(pl: Place)
    ensures Child(Parent(pl), pl.idx % ENTRIES) == pl
  {
  }

  lemma ParentOfChild(pl: Place, i: nat)
    requires pl.lvl > 0 && i < ENTRIES
    ensures Parent(Child(pl, i)) == pl && Child(pl, i).idx % ENTRIES == i
  {
  }

  lemma SameChild(pl: Place, q: Place, i: nat)
    requires q.lvl > 0 && i < ENTRIES
    ensures Child(q, i) == pl <==> Parent(pl) == q && pl.idx % ENTRIES == i
  {
    ParentOfChild(q, i);
    ChildOfParent(pl);
  }

  /** Different virtual pages have different last-level entries. */
  lemma OneEntry(r: nat, v: nat, r': nat, v': nat)
    ensures At(r, 1, v) == At(r', 1, v') && v % ENTRIES == v' % ENTRIES <==> r == r' && v == v'
  {
    assert Idx(v, 1) == v / ENTRIES && Idx(v', 1) == v' / ENTRIES;
  }

  // ---------------------------------------------------------------------------------------
  // The invariant.

  /** The contents of an empty table. */
  function NoEntries(): (r: seq<nat>)
    ensures |r| == ENTRIES && forall k | 0 <= k < ENTRIES :: r[k] == 0
  {
    seq(ENTRIES, _ => 0)
  }

  ghost predicate Distinct(s: seq<nat>) {
    forall i, j | 0 <= i < j < |s| :: s[i] != s[j]
  }

  /** Every page of the machine is free, in use at one place, or held, and only one of these. */
  ghost predicate Conserved(all: set<nat>, m: Mem) {
    && Distinct(m.free)
    && (forall p | p in m.free :: p in all && p !in m.own && p !in m.held)
    && (forall p | p in m.own :: p in all && p !in m.held)
    && m.held <= all && (forall p | p in all :: p in m.free || p in m.own || p in m.held)
  }

  /** Pages and places correspond one to one. */
  ghost predicate OneToOne(m: Mem) {
    && (forall p | p in m.own :: m.own[p] in m.at && m.at[m.own[p]] == p)
    && (forall pl | pl in m.at :: m.at[pl] in m.own && m.own[m.at[pl]] == pl)
  }

  ghost predicate Shaped(m: Mem) {
    && (forall pl | pl in m.at :: pl.lvl <= 3 && (pl.lvl == 3 ==> pl.idx == 0 && m.at[pl] == pl.root))
    && (forall pl | pl in m.at && pl.lvl > 0 :: m.at[pl] in m.ptes && |m.ptes[m.at[pl]]| == ENTRIES)
    && (forall pl | pl in m.at && pl.lvl == 0 :: m.at[pl] in m.bytes && |m.bytes[m.at[pl]]| == PGSIZE)
    && (forall pl | pl in m.at && pl.lvl < 3 :: Parent(pl) in m.at)
  }

  /** Entry i of the table at pl: an interior entry leads to the table at the child place, which
      exists just if the entry is valid; a last-level one is a leaf, and leads to the user page
      there if there is one. */
  ghost predicate EntryOk(m: Mem, pl: Place, i: nat)
    requires pl in m.at && pl.lvl > 0 && m.at[pl] in m.ptes && i < |m.ptes[m.at[pl]]|
  {
    var e, c := m.ptes[m.at[pl]][i], Child(pl, i);
    if pl.lvl > 1 then (IsValid(e) <==> c in m.at) && (IsValid(e) ==> !IsLeaf(e) && Ppn(e) == m.at[c])
    else (IsValid(e) ==> IsLeaf(e)) && (c in m.at ==> IsValid(e) && Ppn(e) == m.at[c])
  }

  ghost predicate Linked(m: Mem)
    requires Shaped(m)
  {
    forall pl: Place, i: nat | pl in m.at && pl.lvl > 0 && i < ENTRIES :: EntryOk(m, pl, i)
  }

  ghost predicate Good(all: set<nat>, m: Mem) {
    Conserved(all, m) && OneToOne(m) && Shaped(m) && Linked(m)
  }

  /** The last-level entry for virtual page v, 0 if there is no table for it. */
  ghost function Leaf(m: Mem, r: nat, v: nat): nat
    requires Shaped(m)
  {
    if At(r, 1, v) in m.at then m.ptes[m.at[At(r, 1, v)]][v % ENTRIES] else 0
  }

  // ---------------------------------------------------------------------------------------
  // Single steps.

  ghost function Taken(m: Mem): Mem
    requires m.free != []
  {
    m.(free := m.free[1..], held := m.held + {m.free[0]})
  }

  lemma TakenGood(all: set<nat>, m: Mem)
    requires Good(all, m) && m.free != []
    ensures Good(all, Taken(m)) && m.free[0] !in m.own && m.free[0] !in m.held
  {
    var m' := Taken(m);
    assert m.free[0] in m.free;
    assert forall p | p in m'.free :: p in m.free;
    assert forall p | p in m.free && p != m.free[0] :: p in m'.free;
    assert forall i | 0 <= i < |m'.free| :: m'.free[i] == m.free[i + 1];
    SameTables(m, m');
  }

  ghost function Released(m: Mem, p: nat): Mem {
    m.(free := [p] + m.free, held := m.held - {p})
  }

  lemma ReleasedGood(all: set<nat>, m: Mem, p: nat)
    requires Good(all, m) && p in m.held
    ensures Good(all, Released(m, p))
  {
    var m' := Released(m, p);
    assert forall i | 0 < i < |m'.free| :: m'.free[i] == m.free[i - 1];
    assert forall q | q in m.free :: q in m'.free by {
      forall q | q in m.free ensures q in m'.free {
        var i :| 0 <= i < |m.free| && m.free[i] == q;
        assert m'.free[i + 1] == q;
      }
    }
    assert m'.free[0] == p;
    SameTables(m, m');
  }

  lemma SameTables(m: Mem, m': Mem)
    requires m'.ptes == m.ptes && m'.at == m.at && m'.bytes == m.bytes && Shaped(m) && Linked(m)
    ensures Shaped(m') && Linked(m') && forall r, v :: Leaf(m', r, v) == Leaf(m, r, v)
  {
    forall pl: Place, i: nat | pl in m'.at && pl.lvl > 0 && i < ENTRIES ensures EntryOk(m', pl, i) {
      assert EntryOk(m, pl, i);
    }
  }

  /** A held page put at a new place. */
  lemma AddPlace(all: set<nat>, m: Mem, m': Mem, pl: Place, p: nat)
    requires Conserved(all, m) && OneToOne(m) && p in m.held && pl !in m.at && m'.free == m.free
    requires m'.own == m.own[p := pl] && m'.at == m.at[pl := p] && m'.held == m.held - {p}
    ensures Conserved(all, m') && OneToOne(m')
  {
  }

  /** A page taken from its place, and held. */
  lemma DropPlace(all: set<nat>, m: Mem, m': Mem, pl: Place)
    requires Conserved(all, m) && OneToOne(m) && pl in m.at && m'.free == m.free
    requires m'.own == m.own - {m.at[pl]} && m'.at == m.at - {pl} && m'.held == m.held + {m.at[pl]}
    ensures Conserved(all, m') && OneToOne(m')
  {
  }

  function EntrySet(t: seq<nat>, i: nat, e: nat): seq<nat>
    requires i < |t|
  {
    t[i := e]
  }

  ghost function SetEntry(m: Mem, pl: Place, i: nat, e: nat): map<nat, seq<nat>>
    requires pl in m.at && m.at[pl] in m.ptes && i < |m.ptes[m.at[pl]]|
  {
    m.ptes[m.at[pl] := EntrySet(m.ptes[m.at[pl]], i, e)]
  }

  /** One entry of one table changes: the tables' pages are all different. */
  lemma EntryAfterSet(m: Mem, pl: Place, i: nat, e: nat, q: Place, j: nat)
    requires OneToOne(m) && Shaped(m) && pl in m.at && q in m.at && pl.lvl > 0 && q.lvl > 0 && i < ENTRIES &&
             j < ENTRIES
    ensures m.at[q] in SetEntry(m, pl, i, e) && |SetEntry(m, pl, i, e)[m.at[q]]| == ENTRIES
    ensures SetEntry(m, pl, i, e)[m.at[q]][j] == if q == pl && j == i then e else m.ptes[m.at[q]][j]
  {
    assert m.own[m.at[q]] == q && m.own[m.at[pl]] == pl;
  }

  lemma SetEntrySizes(m: Mem, pl: Place, i: nat, e: nat)
    requires Shaped(m) && pl in m.at && pl.lvl > 0 && i < ENTRIES
    ensures forall q | q in m.at && q.lvl > 0 ::
            m.at[q] in SetEntry(m, pl, i, e) && |SetEntry(m, pl, i, e)[m.at[q]]| == ENTRIES
  {
  }

  // walk's new table.

  /** Table p at place pl, empty, with its parent's entry leading to it. */
  ghost function WithTable(m: Mem, pl: Place, p: nat): Mem
    requires Parent(pl) in m.at && m.at[Parent(pl)] in m.ptes && |m.ptes[m.at[Parent(pl)]]| == ENTRIES
  {
    m.(ptes := SetEntry(m, Parent(pl), pl.idx % ENTRIES, MakePte(p, 0))[p := NoEntries()],
       own := m.own[p := pl], at := m.at[pl := p], held := m.held - {p})
  }

  ghost predicate CanAddTable(m: Mem, pl: Place, p: nat) {
    1 <= pl.lvl <= 2 && pl !in m.at && Parent(pl) in m.at && p in m.held
  }

  lemma WithTableShape(all: set<nat>, m: Mem, m': Mem, pl: Place, p: nat)
    requires Good(all, m) && CanAddTable(m, pl, p) && m' == WithTable(m, pl, p)
    ensures Shaped(m')
  {
    SetEntrySizes(m, Parent(pl), pl.idx % ENTRIES, MakePte(p, 0));
  }

  lemma WithTableContent(all: set<nat>, m: Mem, m': Mem, pl: Place, p: nat, q: Place, i: nat)
    requires Good(all, m) && CanAddTable(m, pl, p) && m' == WithTable(m, pl, p) && Shaped(m')
    requires q in m.at && q.lvl > 0 && i < ENTRIES
    ensures q in m'.at && m'.at[q] == m.at[q]
    ensures m'.ptes[m.at[q]][i]
         == if q == Parent(pl) && i == pl.idx % ENTRIES then MakePte(p, 0) else m.ptes[m.at[q]][i]
  {
    EntryAfterSet(m, Parent(pl), pl.idx % ENTRIES, MakePte(p, 0), q, i);
  }

  lemma WithTableEntry(all: set<nat>, m: Mem, m': Mem, pl: Place, p: nat, q: Place, i: nat)
    requires Good(all, m) && CanAddTable(m, pl, p) && m' == WithTable(m, pl, p) && Shaped(m')
    requires q in m'.at && q.lvl > 0 && i < ENTRIES
    ensures EntryOk(m', q, i)
  {
    SameChild(pl, q, i);
    if q == pl {
      ParentOfChild(pl, i);
    } else {
      WithTableContent(all, m, m', pl, p, q, i);
      assert EntryOk(m, q, i);
      MadePte(p, 0);
    }
  }

  lemma WithTableGood(all: set<nat>, m: Mem, m': Mem, pl: Place, p: nat)
    requires Good(all, m) && CanAddTable(m, pl, p) && m' == WithTable(m, pl, p)
    ensures Good(all, m')
  {
    AddPlace(all, m, m', pl, p);
    WithTableShape(all, m, m', pl, p);
    forall q: Place, i: nat | q in m'.at && q.lvl > 0 && i < ENTRIES ensures EntryOk(m', q, i) {
      WithTableEntry(all, m, m', pl, p, q, i);
    }
  }

  /** A new table changes no translation. */
  lemma WithTableLeaf(all: set<nat>, m: Mem, m': Mem, pl: Place, p: nat, r: nat, v: nat)
    requires Good(all, m) && CanAddTable(m, pl, p) && m' == WithTable(m, pl, p) && Shaped(m')
    ensures Leaf(m', r, v) == Leaf(m, r, v)
  {
    var q := At(r, 1, v);
    if q in m.at {
      WithTableContent(all, m, m', pl, p, q, v % ENTRIES);
    }
  }

  // uvmcreate.

  ghost function WithRoot(m: Mem, p: nat): Mem {
    m.(ptes := m.ptes[p := NoEntries()], own := m.own[p := Place(p, 3, 0)], at := m.at[Place(p, 3, 0) := p],
      held := m.held - {p})
  }

  /** A held page is the root of nothing. */
  lemma NotARoot(all: set<nat>, m: Mem, p: nat, l: nat, x: nat)
    requires Good(all, m) && p in m.held
    ensures Place(p, l, x) !in m.at
    decreases 3 - l
  {
    if Place(p, l, x) in m.at && l < 3 {
      NotARoot(all, m, p, l + 1, x / ENTRIES);
    }
  }

  lemma WithRootGood(all: set<nat>, m: Mem, m': Mem, p: nat)
    requires Good(all, m) && p in m.held && m' == WithRoot(m, p)
    ensures Good(all, m') && forall r, v :: Leaf(m', r, v) == Leaf(m, r, v)
  {
    var pl := Place(p, 3, 0);
    NotARoot(all, m, p, 3, 0);
    AddPlace(all, m, m', pl, p);
    forall q: Place, i: nat | q in m'.at && q.lvl > 0 && i < ENTRIES ensures EntryOk(m', q, i) {
      if q == pl {
        NotARoot(all, m, p, 2, i);
      } else {
        assert EntryOk(m, q, i);
      }
    }
  }

  // ---------------------------------------------------------------------------------------
  // Last-level entries.

  ghost predicate HasTable(m: Mem, r: nat, v: nat) {
    At(r, 1, v) in m.at && m.at[At(r, 1, v)] in m.ptes && |m.ptes[m.at[At(r, 1, v)]]| == ENTRIES
  }

  /** The tables with the entry for virtual page v of page table r set to e. */
  ghost function LeafSet(m: Mem, r: nat, v: nat, e: nat): map<nat, seq<nat>>
    requires HasTable(m, r, v)
  {
    SetEntry(m, At(r, 1, v), v % ENTRIES, e)
  }

  lemma LeafSetContent(m: Mem, m': Mem, r: nat, v: nat, e: nat, q: Place, i: nat)
    requires OneToOne(m) && Shaped(m) && HasTable(m, r, v) && m'.ptes == LeafSet(m, r, v, e)
    requires q in m.at && q.lvl > 0 && i < ENTRIES
    ensures m.at[q] in m'.ptes && |m'.ptes[m.at[q]]| == ENTRIES
    ensures m'.ptes[m.at[q]][i] == if Child(q, i) == At(r, 0, v) then e else m.ptes[m.at[q]][i]
  {
    EntryAfterSet(m, At(r, 1, v), v % ENTRIES, e, q, i);
    SameChild(At(r, 0, v), q, i);
  }

  /** Setting the entry of one virtual page changes that translation alone. */
  lemma LeafAfterSet(m: Mem, m': Mem, r: nat, v: nat, e: nat, r': nat, v': nat)
    requires OneToOne(m) && Shaped(m) && HasTable(m, r, v) && m'.ptes == LeafSet(m, r, v, e) && Shaped(m')
    requires forall q: Place | q.lvl == 1 :: (q in m'.at <==> q in m.at) && (q in m.at ==> m'.at[q] == m.at[q])
    ensures Leaf(m', r', v') == if r' == r && v' == v then e else Leaf(m, r', v')
  {
    if At(r', 1, v') in m.at { EntryAfterSet(m, At(r, 1, v), v % ENTRIES, e, At(r', 1, v'), v' % ENTRIES); }
    OneEntry(r, v, r', v');
  }

  lemma LeafSetShape(m: Mem, r: nat, v: nat, e: nat)
    requires Shaped(m) && HasTable(m, r, v)
    ensures forall q | q in m.at && q.lvl > 0 ::
            m.at[q] in LeafSet(m, r, v, e) && |LeafSet(m, r, v, e)[m.at[q]]| == ENTRIES
  {
    SetEntrySizes(m, At(r, 1, v), v % ENTRIES, e);
  }

  /** Virtual page v mapped by entry e to a page that is not the table's own. */
  ghost function WithLeaf(m: Mem, r: nat, v: nat, e: nat): Mem
    requires HasTable(m, r, v)
  {
    m.(ptes := LeafSet(m, r, v, e))
  }

  lemma WithLeafGood(all: set<nat>, m: Mem, m': Mem, r: nat, v: nat, e: nat)
    requires Good(all, m) && HasTable(m, r, v) && At(r, 0, v) !in m.at && m' == WithLeaf(m, r, v, e) &&
             (IsValid(e) ==> IsLeaf(e))
    ensures Good(all, m')
  {
    LeafSetShape(m, r, v, e);
    forall q: Place, i: nat | q in m'.at && q.lvl > 0 && i < ENTRIES ensures EntryOk(m', q, i) {
      LeafSetContent(m, m', r, v, e, q, i);
      assert EntryOk(m, q, i);
    }
  }

  /** Virtual page v mapped to held page p, which becomes its own. */
  ghost function WithPage(m: Mem, r: nat, v: nat, p: nat, perm: Perm): Mem
    requires HasTable(m, r, v)
  {
    m.(ptes := LeafSet(m, r, v, MakePte(p, perm)),
       own := m.own[p := At(r, 0, v)], at := m.at[At(r, 0, v) := p], held := m.held - {p})
  }

  ghost predicate CanMap(m: Mem, r: nat, v: nat, p: nat, perm: Perm) {
    && HasTable(m, r, v) && At(r, 0, v) !in m.at && p in m.held && IsLeaf(perm)
    && p in m.bytes && |m.bytes[p]| == PGSIZE
  }

  lemma WithPageEntry(all: set<nat>, m: Mem, m': Mem, r: nat, v: nat, p: nat, perm: Perm, q: Place, i: nat)
    requires Good(all, m) && CanMap(m, r, v, p, perm) && m' == WithPage(m, r, v, p, perm) && Shaped(m')
    requires q in m'.at && q.lvl > 0 && i < ENTRIES
    ensures EntryOk(m', q, i)
  {
    LeafSetContent(m, m', r, v, MakePte(p, perm), q, i);
    assert EntryOk(m, q, i);
    MadePte(p, perm);
  }

  lemma WithPageGood(all: set<nat>, m: Mem, m': Mem, r: nat, v: nat, p: nat, perm: Perm)
    requires Good(all, m) && CanMap(m, r, v, p, perm) && m' == WithPage(m, r, v, p, perm)
    ensures Good(all, m')
  {
    AddPlace(all, m, m', At(r, 0, v), p);
    assert Parent(At(r, 0, v)) == At(r, 1, v);
    LeafSetShape(m, r, v, MakePte(p, perm));
    assert Shaped(m');
    forall q: Place, i: nat | q in m'.at && q.lvl > 0 && i < ENTRIES ensures EntryOk(m', q, i) {
      WithPageEntry(all, m, m', r, v, p, perm, q, i);
    }
  }

  /** The entry that led to a place now gone is cleared, and the others are as they were. */
  lemma EntryDropped(m: Mem, m': Mem, pl: Place, q: Place, i: nat)
    requires q in m.at && q.lvl > 0 && m.at[q] in m.ptes && i < |m.ptes[m.at[q]]| && EntryOk(m, q, i)
    requires m'.at == m.at - {pl} && q != pl && m.at[q] in m'.ptes && i < |m'.ptes[m.at[q]]|
    requires m'.ptes[m.at[q]][i] == if Child(q, i) == pl then 0 else m.ptes[m.at[q]][i]
    ensures EntryOk(m', q, i)
  {
  }

  /** Virtual page v unmapped, and its own page held. */
  ghost function WithoutPage(m: Mem, r: nat, v: nat): Mem
    requires HasTable(m, r, v) && At(r, 0, v) in m.at
  {
    m.(ptes := LeafSet(m, r, v, 0), own := m.own - {m.at[At(r, 0, v)]}, at := m.at - {At(r, 0, v)},
      held := m.held + {m.at[At(r, 0, v)]})
  }

  lemma WithoutPageEntry(all: set<nat>, m: Mem, m': Mem, r: nat, v: nat, q: Place, i: nat)
    requires Good(all, m) && HasTable(m, r, v) && At(r, 0, v) in m.at && m' == WithoutPage(m, r, v) && Shaped(m')
    requires q in m'.at && q.lvl > 0 && i < ENTRIES
    ensures EntryOk(m', q, i)
  {
    LeafSetContent(m, m', r, v, 0, q, i);
    EntryDropped(m, m', At(r, 0, v), q, i);
  }

  lemma WithoutPageShape(m: Mem, m': Mem, r: nat, v: nat)
    requires Shaped(m) && HasTable(m, r, v) && At(r, 0, v) in m.at && m' == WithoutPage(m, r, v)
    ensures Shaped(m')
  {
    LeafSetShape(m, r, v, 0);
  }

  lemma WithoutPageGood(all: set<nat>, m: Mem, m': Mem, r: nat, v: nat)
    requires Good(all, m) && HasTable(m, r, v) && At(r, 0, v) in m.at && m' == WithoutPage(m, r, v)
    ensures Good(all, m')
  {
    DropPlace(all, m, m', At(r, 0, v));
    WithoutPageShape(m, m', r, v);
    forall q: Place, i: nat | q in m'.at && q.lvl > 0 && i < ENTRIES ensures EntryOk(m', q, i) {
      WithoutPageEntry(all, m, m', r, v, q, i);
    }
  }
}
