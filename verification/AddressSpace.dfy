/** Address spaces (kernel/vm.c): the page tables of all processes, as a state machine whose
    steps are the single changes the code makes, refining a finite map from virtual pages to
    entries and contents. */
module AddressSpace {
  import opened Common
  import opened PageTable

  /** A virtual page of the page table with root r. */
  datatype Key = Key(r: nat, v: nat)

  /** The map: which page tables there are, their valid last-level entries, and the contents of
      the user pages they own. */
  datatype View = View(roots: set<nat>, leaf: map<Key, nat>, page: map<Key, seq<Byte>>)

  datatype Sys = Sys(m: Mem, a: View)

  ghost predicate RootsRefine(m: Mem, a: View) {
    forall r :: r in a.roots <==> Place(r, 3, 0) in m.at
  }

  ghost predicate LeavesRefine(m: Mem, a: View)
    requires Shaped(m)
  {
    forall k: Key :: (k in a.leaf <==> IsValid(Leaf(m, k.r, k.v))) && (k in a.leaf ==> a.leaf[k] == Leaf(m, k.r, k.v))
  }

  ghost predicate PagesRefine(m: Mem, a: View)
    requires Shaped(m)
  {
    forall k: Key ::
      (k in a.page <==> At(k.r, 0, k.v) in m.at) && (k in a.page ==> a.page[k] == m.bytes[m.at[At(k.r, 0, k.v)]])
  }

  ghost predicate Inv(all: set<nat>, s: Sys) {
    Good(all, s.m) && RootsRefine(s.m, s.a) && LeavesRefine(s.m, s.a) && PagesRefine(s.m, s.a)
  }

  datatype Event =
    | Alloc                                   // kalloc
    | Free(p: nat)                            // kfree
    | Fill(p: nat, content: seq<Byte>)        // a page not mapped yet gets its bytes
    | Root(p: nat)                            // uvmcreate
    | Table(pl: Place, p: nat)                // walk adds a table
    | Map(k: Key, p: nat, perm: Perm)          // an entry for a page that becomes the table's own
    | Share(k: Key, e: nat)                   // an entry for another page
    | Unmap(k: Key)                           // the entry for its own page cleared
    | Unshare(k: Key)                         // the entry for another page cleared
    | Store(k: Key, content: seq<Byte>)       // copyout changes a page
    | Prune(pl: Place)                        // freewalk removes an empty table

  ghost predicate EmptyTable(m: Mem, pl: Place) {
    && pl in m.at && pl.lvl > 0 && m.at[pl] in m.ptes && |m.ptes[m.at[pl]]| == ENTRIES
    && forall i | 0 <= i < ENTRIES :: !IsValid(m.ptes[m.at[pl]][i])
  }

  ghost predicate Enabled(s: Sys, e: Event) {
    match e
    case Alloc => s.m.free != []
    case Free(p) => p in s.m.held
    case Fill(p, content) => p in s.m.held && |content| == PGSIZE
    case Root(p) => p in s.m.held
    case Table(pl, p) => CanAddTable(s.m, pl, p) && s.m.at[Parent(pl)] in s.m.ptes &&
      |s.m.ptes[s.m.at[Parent(pl)]]| == ENTRIES
    case Map(k, p, perm) => CanMap(s.m, k.r, k.v, p, perm) && k !in s.a.leaf
    case Share(k, e) => HasTable(s.m, k.r, k.v) && k !in s.a.leaf && IsValid(e) && IsLeaf(e)
    case Unmap(k) => HasTable(s.m, k.r, k.v) && At(k.r, 0, k.v) in s.m.at
    case Unshare(k) => HasTable(s.m, k.r, k.v) && At(k.r, 0, k.v) !in s.m.at
    case Store(k, content) => At(k.r, 0, k.v) in s.m.at && |content| == PGSIZE
    case Prune(pl) => CanPrune(s.m, pl)
  }

  /** The table at pl gone, with the entry that led to it, and its page held. */
  ghost function Pruned(m: Mem, pl: Place): Mem
    requires pl in m.at
    requires pl.lvl < 3 ==>
               Parent(pl) in m.at && m.at[Parent(pl)] in m.ptes && |m.ptes[m.at[Parent(pl)]]| == ENTRIES
  {
    m.(ptes := if pl.lvl < 3 then SetEntry(m, Parent(pl), pl.idx % ENTRIES, 0) else m.ptes,
       own := m.own - {m.at[pl]}, at := m.at - {pl}, held := m.held + {m.at[pl]})
  }

  ghost function NextMem(s: Sys, e: Event): Mem
    requires Enabled(s, e)
  {
    match e
    case Alloc => Taken(s.m)
    case Free(p) => Released(s.m, p)
    case Fill(p, content) => s.m.(bytes := s.m.bytes[p := content])
    case Root(p) => WithRoot(s.m, p)
    case Table(pl, p) => WithTable(s.m, pl, p)
    case Map(k, p, perm) => WithPage(s.m, k.r, k.v, p, perm)
    case Share(k, e) => WithLeaf(s.m, k.r, k.v, e)
    case Unmap(k) => WithoutPage(s.m, k.r, k.v)
    case Unshare(k) => WithLeaf(s.m, k.r, k.v, 0)
    case Store(k, content) => s.m.(bytes := s.m.bytes[s.m.at[At(k.r, 0, k.v)] := content])
    case Prune(pl) => Pruned(s.m, pl)
  }

  ghost function NextView(s: Sys, e: Event): View
    requires Enabled(s, e)
  {
    var a := s.a;
    match e
    case Root(p) => a.(roots := a.roots + {p})
    case Map(k, p, perm) => a.(leaf := a.leaf[k := MakePte(p, perm)], page := a.page[k := s.m.bytes[p]])
    case Share(k, e) => a.(leaf := a.leaf[k := e])
    case Unmap(k) => a.(leaf := a.leaf - {k}, page := a.page - {k})
    case Unshare(k) => a.(leaf := a.leaf - {k})
    case Store(k, content) => a.(page := a.page[k := content])
    case Prune(pl) => if pl.lvl == 3 then a.(roots := a.roots - {pl.root}) else a
    case _ => a
  }

  ghost function Next(s: Sys, e: Event): Sys
    requires Enabled(s, e)
  {
    Sys(NextMem(s, e), NextView(s, e))
  }

  // ---------------------------------------------------------------------------------------
  // Each step keeps the invariant.

  /** One leaf changed, in the tables and in the map. */
  lemma LeavesUpdate(m: Mem, m': Mem, a: View, a': View, k: Key)
    requires Shaped(m) && Shaped(m') && LeavesRefine(m, a)
    requires forall k': Key | k' != k :: Leaf(m', k'.r, k'.v) == Leaf(m, k'.r, k'.v)
    requires a'.leaf == if IsValid(Leaf(m', k.r, k.v)) then a.leaf[k := Leaf(m', k.r, k.v)] else a.leaf - {k}
    ensures LeavesRefine(m', a')
  {
  }

  /** Tables, places and page contents as they were. */
  lemma FrameKeeps(all: set<nat>, s: Sys, m': Mem)
    requires Inv(all, s) && Good(all, m') && m'.at == s.m.at && m'.ptes == s.m.ptes
    requires forall pl | pl in m'.at && pl.lvl == 0 :: m'.bytes[m'.at[pl]] == s.m.bytes[m'.at[pl]]
    ensures Inv(all, Sys(m', s.a))
  {
  }

  lemma FillKeeps(all: set<nat>, s: Sys, p: nat, content: seq<Byte>)
    requires Inv(all, s) && Enabled(s, Fill(p, content))
    ensures Inv(all, Next(s, Fill(p, content)))
  {
    var m' := s.m.(bytes := s.m.bytes[p := content]);
    BytesGood(all, s.m, m');
    FrameKeeps(all, s, m');
  }

  lemma TableKeeps(all: set<nat>, s: Sys, pl: Place, p: nat)
    requires Inv(all, s) && Enabled(s, Table(pl, p))
    ensures Inv(all, Next(s, Table(pl, p)))
  {
    var m' := WithTable(s.m, pl, p);
    WithTableGood(all, s.m, m', pl, p);
    TableLeaves(all, s.m, m', pl, p, s.a);
    TableOthers(s.m, m', pl, p, s.a);
  }

  lemma TableLeaves(all: set<nat>, m: Mem, m': Mem, pl: Place, p: nat, a: View)
    requires Good(all, m) && CanAddTable(m, pl, p) && m' == WithTable(m, pl, p) && Shaped(m') && LeavesRefine(m, a)
    ensures LeavesRefine(m', a)
  {
    forall k: Key ensures Leaf(m', k.r, k.v) == Leaf(m, k.r, k.v) { WithTableLeaf(all, m, m', pl, p, k.r, k.v); }
  }

  lemma TableOthers(m: Mem, m': Mem, pl: Place, p: nat, a: View)
    requires Shaped(m) && Shaped(m') && m'.at == m.at[pl := p] && 1 <= pl.lvl <= 2 && m'.bytes == m.bytes
    requires RootsRefine(m, a) && PagesRefine(m, a)
    ensures RootsRefine(m', a) && PagesRefine(m', a)
  {
  }

  lemma MapKeeps(all: set<nat>, s: Sys, k: Key, p: nat, perm: Perm)
    requires Inv(all, s) && Enabled(s, Map(k, p, perm))
    ensures Inv(all, Next(s, Map(k, p, perm)))
  {
    var m' := WithPage(s.m, k.r, k.v, p, perm);
    WithPageGood(all, s.m, m', k.r, k.v, p, perm);
    MadePte(p, perm);
    SetKeeps(s, Next(s, Map(k, p, perm)), k, MakePte(p, perm));
  }

  /** One entry set, in the tables and in the map. */
  lemma SetKeeps(s: Sys, s': Sys, k: Key, e: nat)
    requires OneToOne(s.m) && Shaped(s.m) && LeavesRefine(s.m, s.a) && HasTable(s.m, k.r, k.v)
    requires s'.m.ptes == LeafSet(s.m, k.r, k.v, e) && Shaped(s'.m)
    requires forall q: Place | q.lvl == 1 ::
             (q in s'.m.at <==> q in s.m.at) && (q in s.m.at ==> s'.m.at[q] == s.m.at[q])
    requires s'.a.leaf == if IsValid(e) then s.a.leaf[k := e] else s.a.leaf - {k}
    ensures LeavesRefine(s'.m, s'.a)
  {
    forall k': Key ensures Leaf(s'.m, k'.r, k'.v) == if k' == k then e else Leaf(s.m, k'.r, k'.v) {
      LeafAfterSet(s.m, s'.m, k.r, k.v, e, k'.r, k'.v);
    }
    LeavesUpdate(s.m, s'.m, s.a, s'.a, k);
  }

  lemma ShareKeeps(all: set<nat>, s: Sys, k: Key, e: nat)
    requires Inv(all, s) && Enabled(s, Share(k, e))
    ensures Inv(all, Next(s, Share(k, e)))
  {
    UnmappedHasNoPage(all, s, k);
    WithLeafGood(all, s.m, WithLeaf(s.m, k.r, k.v, e), k.r, k.v, e);
    SetKeeps(s, Next(s, Share(k, e)), k, e);
  }

  /** A user page has a valid leaf entry that leads to it. */
  lemma PageHasLeaf(all: set<nat>, m: Mem, r: nat, v: nat)
    requires Good(all, m) && At(r, 0, v) in m.at
    ensures HasTable(m, r, v) && IsValid(Leaf(m, r, v)) && IsLeaf(Leaf(m, r, v)) &&
            Ppn(Leaf(m, r, v)) == m.at[At(r, 0, v)]
  {
    assert Parent(At(r, 0, v)) == At(r, 1, v);
    ChildOfParent(At(r, 0, v));
    assert EntryOk(m, At(r, 1, v), v % ENTRIES);
  }

  lemma UnmappedHasNoPage(all: set<nat>, s: Sys, k: Key)
    requires Inv(all, s) && k !in s.a.leaf
    ensures At(k.r, 0, k.v) !in s.m.at
  {
    if At(k.r, 0, k.v) in s.m.at { PageHasLeaf(all, s.m, k.r, k.v); }
  }

  lemma UnmapKeeps(all: set<nat>, s: Sys, k: Key)
    requires Inv(all, s) && Enabled(s, Unmap(k))
    ensures Inv(all, Next(s, Unmap(k)))
  {
    var s' := Next(s, Unmap(k));
    WithoutPageGood(all, s.m, s'.m, k.r, k.v);
    UnmapOthers(s.m, s'.m, k, s.a, s'.a);
    UnmapLeaves(s, s', k);
  }

  lemma UnmapLeaves(s: Sys, s': Sys, k: Key)
    requires OneToOne(s.m) && Shaped(s.m) && Shaped(s'.m) && LeavesRefine(s.m, s.a) && HasTable(s.m, k.r, k.v)
    requires s'.m.ptes == LeafSet(s.m, k.r, k.v, 0) && s'.m.at == s.m.at - {At(k.r, 0, k.v)} &&
             s'.a.leaf == s.a.leaf - {k}
    ensures LeavesRefine(s'.m, s'.a)
  {
    TablesStay(s.m.at, s'.m.at, At(k.r, 0, k.v));
    SetKeeps(s, s', k, 0);
  }

  lemma TablesStay(at: map<Place, nat>, at': map<Place, nat>, pl: Place)
    requires pl.lvl == 0 && at' == at - {pl}
    ensures forall q: Place | q.lvl == 1 :: (q in at' <==> q in at) && (q in at ==> at'[q] == at[q])
  {
  }

  lemma UnmapOthers(m: Mem, m': Mem, k: Key, a: View, a': View)
    requires Shaped(m) && Shaped(m') && m'.at == m.at - {At(k.r, 0, k.v)} && m'.bytes == m.bytes
    requires RootsRefine(m, a) && PagesRefine(m, a) && a'.roots == a.roots && a'.page == a.page - {k}
    ensures RootsRefine(m', a') && PagesRefine(m', a')
  {
  }

  lemma UnshareKeeps(all: set<nat>, s: Sys, k: Key)
    requires Inv(all, s) && Enabled(s, Unshare(k))
    ensures Inv(all, Next(s, Unshare(k)))
  {
    WithLeafGood(all, s.m, WithLeaf(s.m, k.r, k.v, 0), k.r, k.v, 0);
    SetKeeps(s, Next(s, Unshare(k)), k, 0);
  }

  lemma StoreKeeps(all: set<nat>, s: Sys, k: Key, content: seq<Byte>)
    requires Inv(all, s) && Enabled(s, Store(k, content))
    ensures Inv(all, Next(s, Store(k, content)))
  {
    var m' := NextMem(s, Store(k, content));
    BytesGood(all, s.m, m');
    StorePages(s, m', k, content);
  }

  lemma BytesGood(all: set<nat>, m: Mem, m': Mem)
    requires Good(all, m) && m' == m.(bytes := m'.bytes)
    requires forall pl | pl in m.at && pl.lvl == 0 :: m.at[pl] in m'.bytes && |m'.bytes[m.at[pl]]| == PGSIZE
    ensures Good(all, m') && forall r, v :: Leaf(m', r, v) == Leaf(m, r, v)
  {
    forall q: Place, i: nat | q in m'.at && q.lvl > 0 && i < ENTRIES ensures EntryOk(m', q, i) {
      assert EntryOk(m, q, i);
    }
  }

  lemma StorePages(s: Sys, m': Mem, k: Key, content: seq<Byte>)
    requires OneToOne(s.m) && Shaped(s.m) && PagesRefine(s.m, s.a)
    requires Enabled(s, Store(k, content)) && m' == NextMem(s, Store(k, content)) && Shaped(m')
    ensures PagesRefine(m', NextView(s, Store(k, content)))
  {
    forall k': Key | At(k'.r, 0, k'.v) in m'.at && k' != k
      ensures m'.bytes[m'.at[At(k'.r, 0, k'.v)]] == s.m.bytes[m'.at[At(k'.r, 0, k'.v)]]
    {
      assert s.m.own[m'.at[At(k'.r, 0, k'.v)]] == At(k'.r, 0, k'.v);
    }
  }

  // Removing an empty table.

  lemma NoChildren(all: set<nat>, m: Mem, pl: Place, q: Place)
    requires Good(all, m) && EmptyTable(m, pl) && q in m.at && q.lvl < 3
    ensures Parent(q) != pl
  {
    assert EntryOk(m, pl, q.idx % ENTRIES);
    ChildOfParent(q);
  }

  ghost predicate CanPrune(m: Mem, pl: Place) {
    && EmptyTable(m, pl) && pl.lvl <= 3
    && (pl.lvl < 3 ==> Parent(pl) in m.at && m.at[Parent(pl)] in m.ptes && |m.ptes[m.at[Parent(pl)]]| == ENTRIES)
  }

  lemma PrunedPlaces(all: set<nat>, m: Mem, m': Mem, pl: Place)
    requires Good(all, m) && CanPrune(m, pl) && m' == Pruned(m, pl)
    ensures Conserved(all, m') && OneToOne(m') && Shaped(m')
  {
    DropPlace(all, m, m', pl);
    PrunedShape(all, m, m', pl);
  }

  lemma PrunedShape(all: set<nat>, m: Mem, m': Mem, pl: Place)
    requires Good(all, m) && CanPrune(m, pl) && m' == Pruned(m, pl)
    ensures Shaped(m')
  {
    forall q | q in m'.at && q.lvl < 3 ensures Parent(q) in m'.at { NoChildren(all, m, pl, q); }
  }

  lemma PrunedContent(all: set<nat>, m: Mem, m': Mem, pl: Place, q: Place, i: nat)
    requires Good(all, m) && CanPrune(m, pl) && m' == Pruned(m, pl) && q in m'.at && q.lvl > 0 && i < ENTRIES
    ensures q in m.at && m'.at[q] == m.at[q] && m.at[q] in m'.ptes && |m'.ptes[m.at[q]]| == ENTRIES
    ensures m'.ptes[m.at[q]][i] == if Child(q, i) == pl then 0 else m.ptes[m.at[q]][i]
  {
    SameChild(pl, q, i);
    if pl.lvl < 3 { EntryAfterSet(m, Parent(pl), pl.idx % ENTRIES, 0, q, i); }
    assert q.lvl <= 3;
  }

  lemma PrunedEntry(all: set<nat>, m: Mem, m': Mem, pl: Place, q: Place, i: nat)
    requires Good(all, m) && CanPrune(m, pl) && m' == Pruned(m, pl) && Shaped(m')
    requires q in m'.at && q.lvl > 0 && i < ENTRIES
    ensures EntryOk(m', q, i)
  {
    PrunedContent(all, m, m', pl, q, i);
    EntryDropped(m, m', pl, q, i);
  }

  lemma PrunedGood(all: set<nat>, m: Mem, m': Mem, pl: Place)
    requires Good(all, m) && CanPrune(m, pl) && m' == Pruned(m, pl)
    ensures Good(all, m')
  {
    PrunedPlaces(all, m, m', pl);
    forall q: Place, i: nat | q in m'.at && q.lvl > 0 && i < ENTRIES ensures EntryOk(m', q, i) {
      PrunedEntry(all, m, m', pl, q, i);
    }
  }

  lemma PrunedLeaf(all: set<nat>, m: Mem, m': Mem, pl: Place, r: nat, v: nat)
    requires Good(all, m) && CanPrune(m, pl) && m' == Pruned(m, pl) && Shaped(m')
    ensures IsValid(Leaf(m', r, v)) <==> IsValid(Leaf(m, r, v))
    ensures IsValid(Leaf(m', r, v)) ==> Leaf(m', r, v) == Leaf(m, r, v)
  {
    if At(r, 1, v) in m'.at { PrunedContent(all, m, m', pl, At(r, 1, v), v % ENTRIES); }
  }

  lemma PruneLeaves(all: set<nat>, m: Mem, m': Mem, pl: Place, a: View, a': View)
    requires Good(all, m) && CanPrune(m, pl) && m' == Pruned(m, pl) && Shaped(m') && LeavesRefine(m, a) &&
             a'.leaf == a.leaf
    ensures LeavesRefine(m', a')
  {
    forall k: Key
      ensures IsValid(Leaf(m', k.r, k.v)) <==> IsValid(Leaf(m, k.r, k.v))
      ensures IsValid(Leaf(m', k.r, k.v)) ==> Leaf(m', k.r, k.v) == Leaf(m, k.r, k.v)
    {
      PrunedLeaf(all, m, m', pl, k.r, k.v);
    }
  }

  lemma PruneKeeps(all: set<nat>, s: Sys, pl: Place)
    requires Inv(all, s) && Enabled(s, Prune(pl))
    ensures Inv(all, Next(s, Prune(pl)))
  {
    var m' := Pruned(s.m, pl);
    PrunedGood(all, s.m, m', pl);
    PruneLeaves(all, s.m, m', pl, s.a, NextView(s, Prune(pl)));
    PruneOthers(s.m, m', pl, s.a, NextView(s, Prune(pl)));
  }

  lemma PruneOthers(m: Mem, m': Mem, pl: Place, a: View, a': View)
    requires Shaped(m) && Shaped(m') && pl in m.at && pl.lvl > 0 && m'.at == m.at - {pl} && m'.bytes == m.bytes &&
             a'.page == a.page
    requires RootsRefine(m, a) && PagesRefine(m, a) && a'.roots == if pl.lvl == 3 then a.roots - {pl.root} else a.roots
    ensures RootsRefine(m', a') && PagesRefine(m', a')
  {
  }

  lemma AllocKeeps(all: set<nat>, s: Sys)
    requires Inv(all, s) && Enabled(s, Alloc)
    ensures Inv(all, Next(s, Alloc))
  {
    TakenGood(all, s.m);
    FrameKeeps(all, s, Taken(s.m));
  }

  lemma FreeKeeps(all: set<nat>, s: Sys, p: nat)
    requires Inv(all, s) && Enabled(s, Free(p))
    ensures Inv(all, Next(s, Free(p)))
  {
    ReleasedGood(all, s.m, p);
    FrameKeeps(all, s, Released(s.m, p));
  }

  lemma RootKeeps(all: set<nat>, s: Sys, p: nat)
    requires Inv(all, s) && Enabled(s, Root(p))
    ensures Inv(all, Next(s, Root(p)))
  {
    WithRootGood(all, s.m, WithRoot(s.m, p), p);
  }

  lemma StepKeeps(all: set<nat>, s: Sys, e: Event)
    requires Inv(all, s) && Enabled(s, e)
    ensures Inv(all, Next(s, e))
  {
    match e
    case Alloc => AllocKeeps(all, s);
    case Free(p) => FreeKeeps(all, s, p);
    case Fill(p, content) => FillKeeps(all, s, p, content);
    case Root(p) => RootKeeps(all, s, p);
    case Table(pl, p) => TableKeeps(all, s, pl, p);
    case Map(k, p, perm) => MapKeeps(all, s, k, p, perm);
    case Share(k, e) => ShareKeeps(all, s, k, e);
    case Unmap(k) => UnmapKeeps(all, s, k);
    case Unshare(k) => UnshareKeeps(all, s, k);
    case Store(k, content) => StoreKeeps(all, s, k, content);
    case Prune(pl) => PruneKeeps(all, s, pl);
  }

  // ---------------------------------------------------------------------------------------
  // Runs.

  /** All pages free, as kinit leaves them. */
  ghost predicate Boot(all: set<nat>, s: Sys) {
    && Distinct(s.m.free) && (forall p :: p in s.m.free <==> p in all)
    && s.m.own == map[] && s.m.at == map[] && s.m.held == {} && s.a == View({}, map[], map[])
  }

  datatype Trace = Start | Then(before: Trace, e: Event)

  ghost predicate Reached(all: set<nat>, tr: Trace, s: Sys)
    decreases tr
  {
    match tr
    case Start => Boot(all, s)
    case Then(before, e) => exists s1 :: Reached(all, before, s1) && Enabled(s1, e) && s == Next(s1, e)
  }

  lemma {:induction false} RunInv(all: set<nat>, tr: Trace, s: Sys)
    requires Reached(all, tr, s)
    ensures Inv(all, s)
  {
    if tr.Then? {
      var s1 :| Reached(all, tr.before, s1) && Enabled(s1, tr.e) && s == Next(s1, tr.e);
      RunInv(all, tr.before, s1);
      StepKeeps(all, s1, tr.e);
    }
  }

  /** In every run, every page of the machine is free, or in use at one place of one page table,
      or held by the kernel thread that allocated it, and exactly one of these. */
  lemma PageHasOneUse(all: set<nat>, tr: Trace, s: Sys, p: nat)
    requires Reached(all, tr, s)
    ensures p in all <==> p in s.m.free || p in s.m.own || p in s.m.held
    ensures !(p in s.m.free && p in s.m.own) && !(p in s.m.free && p in s.m.held) && !(p in s.m.own && p in s.m.held)
    ensures Distinct(s.m.free)
  {
    RunInv(all, tr, s);
  }

  /** The lookup of v from the table at page pt of level l + 1 down, as the hardware and walk do it. */
  ghost function Lookup(ptes: map<nat, seq<nat>>, pt: nat, v: nat, l: nat): nat
    decreases l
  {
    var e := Entry(ptes, pt, Idx(v, l) % ENTRIES);
    if l == 0 then e else if IsValid(e) then Lookup(ptes, Ppn(e), v, l - 1) else 0
  }

  ghost function Entry(ptes: map<nat, seq<nat>>, p: nat, i: nat): nat {
    if p in ptes && i < |ptes[p]| then ptes[p][i] else 0
  }

  lemma Levels(r: nat, v: nat)
    requires v < MAXVPN
    ensures At(r, 3, v) == Place(r, 3, 0)
    ensures Parent(At(r, 0, v)) == At(r, 1, v) && Parent(At(r, 1, v)) == At(r, 2, v) &&
            Parent(At(r, 2, v)) == At(r, 3, v)
  {
    assert Idx(v, 1) == v / 512;
    assert Idx(v, 2) == v / 512 / 512;
    assert Idx(v, 3) == v / 512 / 512 / 512;
  }

  /** What one step of the lookup finds: an entry leads on just if the next table is there. */
  lemma StepDown(all: set<nat>, tr: Trace, s: Sys, r: nat, v: nat, l: nat, pt: nat)
    requires Reached(all, tr, s) && 1 <= l <= 2 && v < MAXVPN && At(r, l + 1, v) in s.m.at &&
             pt == s.m.at[At(r, l + 1, v)]
    ensures pt in s.m.ptes && |s.m.ptes[pt]| == ENTRIES
    ensures IsValid(s.m.ptes[pt][Idx(v, l) % ENTRIES]) <==> At(r, l, v) in s.m.at
    ensures At(r, l, v) in s.m.at ==> Ppn(s.m.ptes[pt][Idx(v, l) % ENTRIES]) == s.m.at[At(r, l, v)]
  {
    RunInv(all, tr, s);
    InteriorEntry(all, s.m, At(r, l, v), pt);
  }

  /** A last-level table hangs from one of the level above. */
  lemma TableAbove(all: set<nat>, tr: Trace, s: Sys, r: nat, v: nat)
    requires Reached(all, tr, s)
    ensures At(r, 1, v) in s.m.at ==> At(r, 2, v) in s.m.at
  {
    RunInv(all, tr, s);
    assert Parent(At(r, 1, v)) == At(r, 2, v);
  }

  lemma InteriorEntry(all: set<nat>, m: Mem, pl: Place, pt: nat)
    requires Good(all, m) && 1 <= pl.lvl <= 2 && Parent(pl) in m.at && pt == m.at[Parent(pl)]
    ensures pt in m.ptes && |m.ptes[pt]| == ENTRIES
    ensures IsValid(m.ptes[pt][pl.idx % ENTRIES]) <==> pl in m.at
    ensures pl in m.at ==> Ppn(m.ptes[pt][pl.idx % ENTRIES]) == m.at[pl]
  {
    ChildOfParent(pl);
    assert EntryOk(m, Parent(pl), pl.idx % ENTRIES);
  }

  lemma RootShape(all: set<nat>, tr: Trace, s: Sys, r: nat)
    requires Reached(all, tr, s)
    ensures r in s.a.roots <==> Place(r, 3, 0) in s.m.at
    ensures r in s.a.roots ==> s.m.at[Place(r, 3, 0)] == r
  {
    RunInv(all, tr, s);
  }

  lemma LeafShape(all: set<nat>, tr: Trace, s: Sys, k: Key)
    requires Reached(all, tr, s) && At(k.r, 1, k.v) in s.m.at
    ensures HasTable(s.m, k.r, k.v)
    ensures var e := s.m.ptes[s.m.at[At(k.r, 1, k.v)]][k.v % ENTRIES];
            (k in s.a.leaf <==> IsValid(e)) && (k in s.a.leaf ==> s.a.leaf[k] == e)
  {
    RunInv(all, tr, s);
  }

  lemma PageShape(all: set<nat>, tr: Trace, s: Sys, k: Key)
    requires Reached(all, tr, s)
    ensures k in s.a.page <==> At(k.r, 0, k.v) in s.m.at
    ensures k in s.a.page ==>
              && k in s.a.leaf && IsLeaf(s.a.leaf[k]) && Ppn(s.a.leaf[k]) == s.m.at[At(k.r, 0, k.v)] &&
                   HasTable(s.m, k.r, k.v)
              && Ppn(s.a.leaf[k]) in s.m.bytes && s.m.bytes[Ppn(s.a.leaf[k])] == s.a.page[k] && |s.a.page[k]| == PGSIZE
  {
    RunInv(all, tr, s);
    if At(k.r, 0, k.v) in s.m.at { PageHasLeaf(all, s.m, k.r, k.v); }
  }

  lemma NoTableShape(all: set<nat>, tr: Trace, s: Sys, k: Key)
    requires Reached(all, tr, s) && At(k.r, 1, k.v) !in s.m.at
    ensures k !in s.a.leaf && k !in s.a.page
  {
    RunInv(all, tr, s);
    assert Leaf(s.m, k.r, k.v) == 0;
    PageShape(all, tr, s, k);
  }

  /** The lookup ends at the last-level table for v, if there is one. */
  lemma {:induction false} LookupFollows(all: set<nat>, tr: Trace, s: Sys, r: nat, v: nat, l: nat)
    requires Reached(all, tr, s) && v < MAXVPN && l <= 2 && At(r, l + 1, v) in s.m.at
    ensures Lookup(s.m.ptes, s.m.at[At(r, l + 1, v)], v, l)
         == if At(r, 1, v) in s.m.at then Entry(s.m.ptes, s.m.at[At(r, 1, v)], v % ENTRIES) else 0
  {
    if l > 0 {
      StepDown(all, tr, s, r, v, l, s.m.at[At(r, l + 1, v)]);
      TableAbove(all, tr, s, r, v);
      if At(r, l, v) in s.m.at { LookupFollows(all, tr, s, r, v, l - 1); }
    }
  }

  /** Page tables refine a map: looking a page up gives the map's entry, or an invalid one. */
  lemma LookupIsMap(all: set<nat>, tr: Trace, s: Sys, k: Key)
    requires Reached(all, tr, s) && k.r in s.a.roots && k.v < MAXVPN
    ensures IsValid(Lookup(s.m.ptes, k.r, k.v, 2)) <==> k in s.a.leaf
    ensures k in s.a.leaf ==> Lookup(s.m.ptes, k.r, k.v, 2) == s.a.leaf[k]
  {
    RootShape(all, tr, s, k.r);
    Levels(k.r, k.v);
    LookupFollows(all, tr, s, k.r, k.v, 2);
    if At(k.r, 1, k.v) in s.m.at {
      LeafShape(all, tr, s, k);
    } else {
      NoTableShape(all, tr, s, k);
    }
  }

  /** No user page belongs to two virtual pages, of one page table or of two. */
  lemma PagesNotShared(all: set<nat>, tr: Trace, s: Sys, k: Key, k': Key)
    requires Reached(all, tr, s) && k in s.a.page && k' in s.a.page && k != k'
    ensures k in s.a.leaf && k' in s.a.leaf && Ppn(s.a.leaf[k]) != Ppn(s.a.leaf[k'])
  {
    PageShape(all, tr, s, k);
    PageShape(all, tr, s, k');
    RunInv(all, tr, s);
    assert s.m.own[s.m.at[At(k.r, 0, k.v)]] == At(k.r, 0, k.v) &&
           s.m.own[s.m.at[At(k'.r, 0, k'.v)]] == At(k'.r, 0, k'.v);
  }

  // ---------------------------------------------------------------------------------------
  // What the code may rely on.

  lemma HeldShape(all: set<nat>, tr: Trace, s: Sys, p: nat)
    requires Reached(all, tr, s) && p in s.m.held
    ensures p in all && p !in s.m.own
  {
    RunInv(all, tr, s);
  }

  lemma FreeShape(all: set<nat>, tr: Trace, s: Sys)
    requires Reached(all, tr, s) && s.m.free != []
    ensures s.m.free[0] in all && s.m.free[0] !in s.m.held && s.m.free[0] !in s.m.own
  {
    RunInv(all, tr, s);
    assert s.m.free[0] in s.m.free;
  }

  ghost function UserPages(m: Mem, r: nat, n: nat): set<nat>
    requires forall v | 0 <= v < n :: At(r, 0, v) in m.at
  {
    if n == 0 then {} else UserPages(m, r, n - 1) + {m.at[At(r, 0, n - 1)]}
  }

  lemma {:induction false} UserPagesCount(m: Mem, r: nat, n: nat)
    requires OneToOne(m) && forall v | 0 <= v < n :: At(r, 0, v) in m.at
    ensures |UserPages(m, r, n)| == n
    ensures forall p | p in UserPages(m, r, n) :: p in m.own && m.own[p].idx < n
  {
    if n > 0 {
      UserPagesCount(m, r, n - 1);
      assert m.own[m.at[At(r, 0, n - 1)]] == At(r, 0, n - 1);
    }
  }

  /** A process with n pages, while another page is held, has left memory for no more than the rest:
      so its page numbers stay below the number of pages. */
  lemma UserPagesFit(all: set<nat>, tr: Trace, s: Sys, r: nat, n: nat, p: nat)
    requires Reached(all, tr, s) && p in s.m.held && forall v | 0 <= v < n :: Key(r, v) in s.a.page
    ensures n < |all|
  {
    RunInv(all, tr, s);
    forall v | 0 <= v < n ensures At(r, 0, v) in s.m.at { assert Key(r, v) in s.a.page; }
    UserPagesCount(s.m, r, n);
    PartSize(UserPages(s.m, r, n), all - {p});
  }

  lemma TableShape(all: set<nat>, tr: Trace, s: Sys, r: nat, v: nat, l: nat, p: nat)
    requires Reached(all, tr, s) && 1 <= l <= 2 && v < MAXVPN && At(r, l + 1, v) in s.m.at &&
             At(r, l, v) !in s.m.at && p in s.m.held
    ensures Parent(At(r, l, v)) == At(r, l + 1, v) && Enabled(s, Table(At(r, l, v), p))
  {
    Levels(r, v);
    StepDown(all, tr, s, r, v, l, s.m.at[At(r, l + 1, v)]);
  }

  /** A mapped virtual page has a last-level table, and its entry is a leaf. */
  lemma MappedShape(all: set<nat>, tr: Trace, s: Sys, k: Key)
    requires Reached(all, tr, s) && k in s.a.leaf
    ensures At(k.r, 1, k.v) in s.m.at && HasTable(s.m, k.r, k.v)
    ensures s.m.ptes[s.m.at[At(k.r, 1, k.v)]][k.v % ENTRIES] == s.a.leaf[k] && IsValid(s.a.leaf[k]) &&
            IsLeaf(s.a.leaf[k])
  {
    if At(k.r, 1, k.v) !in s.m.at { NoTableShape(all, tr, s, k); }
    LeafShape(all, tr, s, k);
    LastEntry(all, tr, s, k);
  }

  lemma LastEntry(all: set<nat>, tr: Trace, s: Sys, k: Key)
    requires Reached(all, tr, s) && HasTable(s.m, k.r, k.v)
    ensures var e := s.m.ptes[s.m.at[At(k.r, 1, k.v)]][k.v % ENTRIES]; IsValid(e) ==> IsLeaf(e)
  {
    RunInv(all, tr, s);
    assert EntryOk(s.m, At(k.r, 1, k.v), k.v % ENTRIES);
  }

  ghost function Without(a: View, ks: set<Key>): View { a.(leaf := a.leaf - ks, page := a.page - ks) }

  ghost function Mapped(a: View, k: Key, p: nat, perm: Perm, content: seq<Byte>): View {
    a.(leaf := a.leaf[k := MakePte(p, perm)], page := a.page[k := content])
  }

  lemma OwnedShape(all: set<nat>, tr: Trace, s: Sys, pl: Place)
    requires Reached(all, tr, s) && pl in s.m.at
    ensures s.m.at[pl] in s.m.own && s.m.own[s.m.at[pl]] == pl && s.m.at[pl] in all && s.m.at[pl] !in s.m.held
  {
    RunInv(all, tr, s);
  }

  // ---------------------------------------------------------------------------------------
  // Address spaces: user pages are exactly the first n.

  ghost predicate Space(a: View, r: nat, n: nat) {
    && r in a.roots && n <= MAXVPN - 2
    && (forall v: nat | v < n :: Key(r, v) in a.page && Key(r, v) in a.leaf)
    && (forall k | k in a.page && k.r == r :: k.v < n)
    && (forall k | k in a.leaf && k.r == r :: k.v < n || MAXVPN - 2 <= k.v < MAXVPN)
  }

  /** A page to be added: where it is, what it holds, and its permissions. */
  datatype New = New(p: nat, content: seq<Byte>, perm: Perm)

  /** The map with new pages from v on. */
  ghost function With(a: View, r: nat, v: nat, news: seq<New>): View
  {
    if news == [] then a
    else
      var n := |news| - 1;
      Mapped(With(a, r, v, news[..n]), Key(r, v + n), news[n].p, news[n].perm, news[n].content)
  }

  /** What the map with new pages says. */
  lemma {:induction false} WithAt(a: View, r: nat, v: nat, news: seq<New>, k: Key)
    ensures var b, isNew := With(a, r, v, news), k.r == r && v <= k.v < v + |news|;
            && b.roots == a.roots
            && (k in b.leaf <==> isNew || k in a.leaf) && (k in b.page <==> isNew || k in a.page)
            && (isNew ==>
                  b.leaf[k] == MakePte(news[k.v - v].p, news[k.v - v].perm) && b.page[k] == news[k.v - v].content)
            && (!isNew && k in a.leaf ==> b.leaf[k] == a.leaf[k]) && (!isNew && k in a.page ==> b.page[k] == a.page[k])
  {
    if news != [] { WithAt(a, r, v, news[..|news| - 1], k); }
  }

  lemma WithOneMore(a: View, r: nat, v: nat, news: seq<New>, x: New)
    ensures With(a, r, v, news + [x]) == Mapped(With(a, r, v, news), Key(r, v + |news|), x.p, x.perm, x.content)
  {
    assert (news + [x])[..|news|] == news;
  }

  lemma SpaceGrows(a: View, r: nat, n: nat, news: seq<New>)
    requires Space(a, r, n) && n + |news| <= MAXVPN - 2
    ensures Space(With(a, r, n, news), r, n + |news|)
  {
    forall k: Key | k.r == r
      ensures k in With(a, r, n, news).page <==> n <= k.v < n + |news| || k in a.page
      ensures k in With(a, r, n, news).leaf <==> n <= k.v < n + |news| || k in a.leaf
    {
      WithAt(a, r, n, news, k);
    }
    WithAt(a, r, n, news, Key(r, 0));
  }

  /** Adding pages and taking them away again. */
  lemma WithWithout(a: View, r: nat, v: nat, news: seq<New>, ks: set<Key>)
    requires forall k :: k in ks <==> k.r == r && v <= k.v < v + |news|
    requires forall k | k in ks :: k !in a.leaf && k !in a.page
    ensures Without(With(a, r, v, news), ks) == a
  {
    var b := Without(With(a, r, v, news), ks);
    forall k: Key
      ensures (k in b.leaf <==> k in a.leaf) && (k in b.page <==> k in a.page)
      ensures (k in a.leaf ==> b.leaf[k] == a.leaf[k]) && (k in a.page ==> b.page[k] == a.page[k])
    {
      WithAt(a, r, v, news, k);
    }
    WithAt(a, r, v, news, Key(r, v));
    assert b.leaf == a.leaf && b.page == a.page;
  }

  lemma SpaceShrinks(a: View, r: nat, n: nat, n': nat, ks: set<Key>)
    requires Space(a, r, n) && n' <= n && forall k :: k in ks <==> k.r == r && n' <= k.v < n
    ensures Space(Without(a, ks), r, n')
  {
  }

  /** The flags of a leaf entry are a leaf's, and remaking the entry from them gives it back. */
  lemma LeafFlags(e: nat)
    requires IsLeaf(e)
    ensures IsLeaf(Flags(e))
    ensures IsValid(e) ==> MakePte(Ppn(e), Flags(e)) == e
  {
    assert e == 1024 * Ppn(e) + Flags(e);
    assert e / 2 == 512 * Ppn(e) + Flags(e) / 2;
    assert 512 * Ppn(e) + Flags(e) / 2 == 8 * (64 * Ppn(e)) + Flags(e) / 2;
  }

  lemma SpaceFits(all: set<nat>, tr: Trace, s: Sys, r: nat, n: nat, p: nat)
    requires Reached(all, tr, s) && p in s.m.held && Space(s.a, r, n) && |all| <= MAXVPN - 2
    ensures n < MAXVPN - 2 && Key(r, n) !in s.a.leaf
  {
    UserPagesFit(all, tr, s, r, n, p);
  }

  // ---------------------------------------------------------------------------------------
  // freewalk.

  ghost predicate NoLeaves(a: View, r: nat) { forall k | k in a.leaf :: k.r != r }

  /** What freewalk finds in entry i of the table at pl, once all leaves are gone: nothing, or a
      table below; never a leaf. */
  lemma WalkShape(all: set<nat>, tr: Trace, s: Sys, pl: Place, i: nat)
    requires Reached(all, tr, s) && pl in s.m.at && pl.lvl > 0 && i < ENTRIES && NoLeaves(s.a, pl.root)
    ensures s.m.at[pl] in s.m.ptes && |s.m.ptes[s.m.at[pl]]| == ENTRIES
    ensures var e := s.m.ptes[s.m.at[pl]][i];
            IsValid(e) ==> !IsLeaf(e) && pl.lvl > 1 && Child(pl, i) in s.m.at && Ppn(e) == s.m.at[Child(pl, i)]
  {
    RunInv(all, tr, s);
    if pl.lvl == 1 {
      var k := Key(pl.root, ENTRIES * pl.idx + i);
      ParentOfChild(pl, i);
      assert At(k.r, 1, k.v) == pl by { assert Idx(k.v, 1) == k.v / ENTRIES; }
      LeafShape(all, tr, s, k);
    } else {
      assert EntryOk(s.m, pl, i);
    }
  }

  /** The state in which the entry leading to pl is cleared. */
  ghost function Cleared(m: Mem, pl: Place): Mem {
    if pl.lvl < 3 && Parent(pl) in m.at && m.at[Parent(pl)] in m.ptes && |m.ptes[m.at[Parent(pl)]]| == ENTRIES
    then m.(ptes := SetEntry(m, Parent(pl), pl.idx % ENTRIES, 0)) else m
  }

  lemma PruneShape(all: set<nat>, tr: Trace, s: Sys, pl: Place)
    requires Reached(all, tr, s) && pl in s.m.at && 1 <= pl.lvl <= 3 && s.m.at[pl] in s.m.ptes &&
             |s.m.ptes[s.m.at[pl]]| == ENTRIES
    requires forall i | 0 <= i < ENTRIES :: !IsValid(s.m.ptes[s.m.at[pl]][i])
    ensures Enabled(s, Prune(pl)) && s.m.at[pl] !in s.m.held && (pl.lvl < 3 ==> Parent(pl) != pl)
    ensures pl.lvl == 3 ==> s.m.at[pl] == pl.root
  {
    RunInv(all, tr, s);
  }

  /** When a page table's root is gone, so are all its pages. */
  lemma NothingLeft(all: set<nat>, tr: Trace, s: Sys, pl: Place)
    requires Reached(all, tr, s) && pl in s.m.at
    ensures pl.root in s.a.roots
    decreases 3 - pl.lvl
  {
    RunInv(all, tr, s);
    if pl.lvl < 3 { NothingLeft(all, tr, s, Parent(pl)); }
  }

  lemma OthersElsewhere(all: set<nat>, tr: Trace, s: Sys, pl: Place)
    requires Reached(all, tr, s) && pl in s.m.at
    ensures forall q | q in s.m.at && q != pl :: s.m.at[q] != s.m.at[pl]
  {
    RunInv(all, tr, s);
  }

  lemma TableSizes(all: set<nat>, tr: Trace, s: Sys)
    requires Reached(all, tr, s)
    ensures forall q | q in s.m.at && q.lvl > 0 :: s.m.at[q] in s.m.ptes && |s.m.ptes[s.m.at[q]]| == ENTRIES
  {
    RunInv(all, tr, s);
  }

  /** An empty root has no translations. */
  lemma FreshRoot(all: set<nat>, tr: Trace, s: Sys, p: nat, k: Key)
    requires Reached(all, tr, s) && p in s.m.held && k.r == p
    ensures k !in s.a.leaf && k !in s.a.page && p !in s.a.roots
  {
    HeldNowhere(all, tr, s, p, At(p, 1, k.v));
    HeldNowhere(all, tr, s, p, Place(p, 3, 0));
    NoTableShape(all, tr, s, k);
    RootShape(all, tr, s, p);
  }

  lemma HeldNowhere(all: set<nat>, tr: Trace, s: Sys, p: nat, pl: Place)
    requires Reached(all, tr, s) && p in s.m.held && pl.root == p
    ensures pl !in s.m.at
  {
    RunInv(all, tr, s);
    NotARoot(all, s.m, p, pl.lvl, pl.idx);
  }

  lemma PruneFree(all: set<nat>, tr: Trace, s: Sys, pl: Place, m: Mem)
    requires Reached(all, tr, s) && Enabled(s, Prune(pl)) && s.m.at[pl] !in s.m.held &&
             (pl.lvl < 3 ==> Parent(pl) != pl)
    requires m == s.m.(free := [s.m.at[pl]] + s.m.free, own := s.m.own - {s.m.at[pl]}, at := s.m.at - {pl})
    ensures Reached(all, Then(Then(tr, Prune(pl)), Free(s.m.at[pl])), Sys(Cleared(m, pl), Next(s, Prune(pl)).a))
  {
    var s1 := Next(s, Prune(pl));
    assert Reached(all, Then(tr, Prune(pl)), s1);
    assert Released(s1.m, s.m.at[pl]).held == m.held;
    assert Cleared(m, pl) == Released(s1.m, s.m.at[pl]);
    assert Next(s1, Free(s.m.at[pl])) == Sys(Cleared(m, pl), s1.a);
  }

  /** Pages only leave their places. */
  ghost predicate OwnShrinks(own0: map<nat, Place>, own: map<nat, Place>) {
    forall p | p in own :: p in own0 && own0[p] == own[p]
  }

  /** The tables and pages of the spaces other than r are where they were, and the tables say what they said. */
  ghost predicate OthersKept(r: nat, at0: map<Place, nat>, ptes0: map<nat, seq<nat>>, at: map<Place, nat>,
                             ptes: map<nat, seq<nat>>) {
    forall q | q in at0 && q.root != r ::
      q in at && at[q] == at0[q] && (at0[q] in ptes0 ==> at0[q] in ptes && ptes[at0[q]] == ptes0[at0[q]])
  }

  /** After a page table is gone and no page has been given a new place, its pages are free. */
  lemma FreedPages(all: set<nat>, tr: Trace, s: Sys, own0: map<nat, Place>, r: nat, p: nat)
    requires Reached(all, tr, s) && r !in s.a.roots && OwnShrinks(own0, s.m.own)
    requires p in all && p !in s.m.held && p in own0 && own0[p].root == r
    ensures p in s.m.free
  {
    PageHasOneUse(all, tr, s, p);
    if p in s.m.own {
      OwnPlace(all, tr, s, p);
      NothingLeft(all, tr, s, s.m.own[p]);
    }
  }

  lemma OwnPlace(all: set<nat>, tr: Trace, s: Sys, p: nat)
    requires Reached(all, tr, s) && p in s.m.own
    ensures s.m.own[p] in s.m.at && p in all && p !in s.m.held
  {
    RunInv(all, tr, s);
  }

  lemma PageSizes(all: set<nat>, tr: Trace, s: Sys)
    requires Reached(all, tr, s)
    ensures forall k | k in s.a.page :: |s.a.page[k]| == PGSIZE
  {
    RunInv(all, tr, s);
  }
}
