/**
 The buffer cache of kernel/bio.c: a circular doubly linked list of all buffers through a
 sentinel, most recently released first, from which bget recycles.

 bcache.lock is held through each method here, so methods are the atomic steps of the cache;
 the sleep-lock that brelse also releases is part of the process model, and disk reads and
 the contents of buffers are part of the log model.
 */
module BufferCache {

  class Buf {
    var dev: nat
    var blockno: nat
    var valid: bool
    var refcnt: nat
    var prev: Buf
    var next: Buf
    /** When the buffer was last put at the front of the list. */
    ghost var stamp: nat

    /** A buffer as the zeroed memory of the kernel holds it, linked to itself. */
    constructor ()
      ensures dev == 0 && blockno == 0 && !valid && refcnt == 0
      ensures prev == this && next == this
    {
      dev, blockno, valid, refcnt := 0, 0, false, 0;
      prev, next := this, this;
      stamp := 0;
    }
  }

  /** Neighbours in `ring` point at each other. */
  ghost predicate Linked(ring: seq<Buf>)
    reads ring
  {
    forall i, j | 0 <= i && j == i + 1 && j < |ring| :: ring[i].next == ring[j] && ring[j].prev == ring[i]
  }

  ghost predicate NoDup(s: seq<Buf>) {
    forall i, j | 0 <= i < j < |s| :: s[i] != s[j]
  }

  predicate Matches(b: Buf, dev: nat, blockno: nat)
    reads b
  {
    b.dev == dev && b.blockno == blockno
  }

  /** s without its k-th element, which moves to the front. */
  function MovedToFront<T>(s: seq<T>, k: nat): seq<T>
    requires k < |s|
  {
    [s[k]] + s[..k] + s[k + 1..]
  }

  function Without<T>(s: seq<T>, k: nat): seq<T>
    requires k < |s|
  {
    s[..k] + s[k + 1..]
  }

  lemma MovedElements<T>(s: seq<T>, k: nat)
    requires k < |s|
    ensures MovedToFront(s, k) == [s[k]] + Without(s, k)
    ensures forall x :: x in MovedToFront(s, k) <==> x in s
    ensures forall x | x in Without(s, k) :: x in s
  {
    assert s == s[..k] + [s[k]] + s[k + 1..];
  }

  class BCache {
    var head: Buf
    /** The buffers, from head.next to head.prev. */
    ghost var order: seq<Buf>
    ghost var clock: nat

    ghost function Ring(): seq<Buf>
      reads this
    {
      [head] + order + [head]
    }

    ghost function Nodes(): set<Buf>
      reads this
    {
      {head} + set b | b in order
    }

    /** The list structure. */
    ghost predicate IsRing()
      reads this, head, order
    {
      head !in order && NoDup(order) && Linked(Ring())
    }

    /** Each (dev, blockno) with dev != 0 has at most one buffer. */
    ghost predicate Unique()
      reads this, order
    {
      forall x, y | x in order && y in order && x != y && x.dev != 0 :: !Matches(x, y.dev, y.blockno)
    }

    /** The list is sorted by the time of the last release, latest first. */
    ghost predicate ByRecency()
      reads this, order
    {
      && (forall i | 0 <= i < |order| :: order[i].stamp < clock)
      && (forall i, j | 0 <= i < j < |order| :: order[i].stamp > order[j].stamp)
    }

    ghost predicate Valid()
      reads this, head, order
    {
      IsRing() && Unique() && ByRecency()
    }

    /** binit. */
    constructor (nbuf: nat)
      ensures Valid() && |order| == nbuf
      ensures fresh(head) && forall b | b in order :: fresh(b) && b.dev == 0 && b.refcnt == 0 && !b.valid
    {
      head := new Buf();
      order := [];
      clock := 0;
      new;
      var i := 0;
      while i < nbuf
        invariant 0 <= i <= nbuf && |order| == i
        invariant IsRing() && ByRecency()
        invariant fresh(head) && forall b | b in order :: fresh(b) && b.dev == 0 && b.refcnt == 0 && !b.valid
      {
        var b := new Buf();
        PushFront(b);
        i := i + 1;
      }
    }

    /** Link b in behind the sentinel. */
    method LinkFront(b: Buf)
      requires IsRing() && b !in order && b != head
      modifies this`order, Nodes()`prev, Nodes()`next, b`prev, b`next
      ensures order == [b] + old(order) && IsRing()
    {
      ghost var ring := Ring();
      assert ring[0].next == ring[1];
      b.next := head.next;
      b.prev := head;
      head.next.prev := b;
      head.next := b;
      order := [b] + order;
      assert Ring() == [head, b] + ring[1..];
    }

    method PushFront(b: Buf)
      requires IsRing() && b !in order && b != head && ByRecency()
      modifies this`order, this`clock, Nodes()`prev, Nodes()`next, b`prev, b`next, b`stamp
      ensures order == [b] + old(order) && IsRing() && ByRecency() && clock == old(clock) + 1
    {
      LinkFront(b);
      b.stamp := clock;
      clock := clock + 1;
    }

    /** Take b, the k-th buffer, out of the list. */
    method Unlink(b: Buf, ghost k: nat)
      requires IsRing() && k < |order| && order[k] == b
      modifies this`order, Nodes()`prev, Nodes()`next
      ensures order == Without(old(order), k) && IsRing()
    {
      ghost var ring := Ring();
      ghost var rest := Without(order, k);
      ghost var short := [head] + rest + [head];
      assert forall i | 0 <= i < |short| :: short[i] == if i <= k then ring[i] else ring[i + 1];
      assert ring[k + 1] == b && ring[k + 1 + 1] == b.next && ring[k] == b.prev;
      b.next.prev := b.prev;
      b.prev.next := b.next;
      order := rest;
      assert Ring() == short;
      forall i, j | 0 <= i && j == i + 1 && j < |short|
        ensures short[i].next == short[j] && short[j].prev == short[i]
      {
        ghost var m := if i <= k then i else i + 1;
        assert old(ring[m].next) == ring[m + 1] && old(ring[m + 1].prev) == ring[m];
        if i == k {
          assert old(ring[k + 1].next) == ring[k + 2];
        }
      }
    }

    /** bget's first scan: the cached buffer of a block, if there is one. */
    method Find(dev: nat, blockno: nat) returns (r: Buf?)
      requires IsRing()
      ensures r == null ==> forall i | 0 <= i < |order| :: !Matches(order[i], dev, blockno)
      ensures r != null ==> r in order && Matches(r, dev, blockno)
    {
      var b := head.next;
      ghost var k := 0;
      assert Ring()[0].next == Ring()[1];
      while b != head
        invariant 0 <= k <= |order| && b == Ring()[k + 1]
        invariant forall i | 0 <= i < k :: !Matches(order[i], dev, blockno)
        decreases |order| - k
      {
        assert b == order[k];
        if b.dev == dev && b.blockno == blockno {
          return b;
        }
        assert Ring()[k + 1].next == Ring()[k + 2];
        b := b.next;
        k := k + 1;
      }
      r := null;
    }

    /** bget's second scan, from the least recently released end. */
    method Victim() returns (r: Buf?)
      requires IsRing() && ByRecency()
      ensures r == null ==> forall i | 0 <= i < |order| :: order[i].refcnt > 0
      ensures r != null ==> r in order && r.refcnt == 0
      ensures r != null ==> forall x | x in order && x.refcnt == 0 :: r.stamp <= x.stamp
    {
      ghost var n := |order|;
      var b := head.prev;
      ghost var k := n;
      assert Ring()[n].next == Ring()[n + 1];
      while b != head
        invariant 0 <= k <= n == |order| && b == Ring()[k]
        invariant forall i | k <= i < n :: order[i].refcnt > 0
        decreases k
      {
        assert b == order[k - 1];
        if b.refcnt == 0 {
          return b;
        }
        assert Ring()[k - 1].next == Ring()[k];
        b := b.prev;
        k := k - 1;
      }
      r := null;
    }

    /** Rebind an unreferenced buffer to a block that has none. */
    method Rebind(b: Buf, dev: nat, blockno: nat)
      requires Valid() && b in order && forall x | x in order :: !Matches(x, dev, blockno)
      modifies b`dev, b`blockno, b`valid, b`refcnt
      ensures Valid() && Matches(b, dev, blockno) && b.refcnt == 1 && !b.valid
    {
      b.dev := dev;
      b.blockno := blockno;
      b.valid := false;
      b.refcnt := 1;
    }

    /** bget: null is the "no buffers" panic.  A cached buffer gains a reference; otherwise the
        unreferenced buffer released longest ago is rebound to the block. */
    method Bget(dev: nat, blockno: nat) returns (r: Buf?)
      requires Valid()
      modifies Nodes()`dev, Nodes()`blockno, Nodes()`valid, Nodes()`refcnt
      ensures Valid()
      ensures forall x | x in Nodes() && x != r :: unchanged(x)
      ensures r == null ==> forall x | x in order :: x.refcnt > 0 && !Matches(x, dev, blockno)
      ensures r != null ==> r in order && Matches(r, dev, blockno)
      ensures r != null && old(Matches(r, dev, blockno)) ==> r.refcnt == old(r.refcnt) + 1 && r.valid == old(r.valid)
      ensures r != null && !old(Matches(r, dev, blockno)) ==>
                && (forall x | x in order :: !old(Matches(x, dev, blockno)))
                && old(r.refcnt) == 0 && r.refcnt == 1 && !r.valid
                && (forall x | x in order && old(x.refcnt) == 0 :: r.stamp <= x.stamp)
    {
      r := Find(dev, blockno);
      if r != null {
        Bpin(r);
        return;
      }
      r := Victim();
      if r != null {
        Rebind(r, dev, blockno);
      }
    }

    method TakeOut(b: Buf, ghost k: nat)
      requires IsRing() && ByRecency() && k < |order| && order[k] == b
      modifies this`order, Nodes()`prev, Nodes()`next
      ensures order == Without(old(order), k) && IsRing() && ByRecency() && b !in order && b != head
    {
      ghost var was := order;
      Unlink(b, k);
      assert forall i | 0 <= i < |order| :: order[i] == was[if i < k then i else i + 1];
    }

    /** The list surgery of brelse. */
    method MoveFirst(b: Buf, ghost k: nat)
      requires Valid() && k < |order| && order[k] == b
      modifies this`order, this`clock, Nodes()`prev, Nodes()`next, b`stamp
      ensures Valid() && order == MovedToFront(old(order), k)
      ensures forall x | x in order && x != b :: x.stamp < b.stamp
    {
      ghost var was := order;
      MovedElements(was, k);
      TakeOut(b, k);
      PushFront(b);
      assert order[0] == b && order == MovedToFront(was, k);
      forall x, y | x in order && y in order && x != y && x.dev != 0 ensures !Matches(x, y.dev, y.blockno) {
        assert x in was && y in was;
        assert old(!Matches(x, y.dev, y.blockno));
      }
    }

    /** brelse, after the sleep-lock is released: the last reference puts the buffer first. */
    method Brelse(b: Buf) returns (ghost k: nat)
      requires Valid() && b in order && b.refcnt > 0
      modifies this`order, this`clock, Nodes()`prev, Nodes()`next, b`refcnt, b`stamp
      ensures Valid() && b.refcnt == old(b.refcnt) - 1
      ensures k < |old(order)| && old(order)[k] == b
      ensures order == if b.refcnt == 0 then MovedToFront(old(order), k) else old(order)
      ensures b.refcnt == 0 ==> forall x | x in order && x != b :: x.stamp < b.stamp
    {
      k :| 0 <= k < |order| && order[k] == b;
      Bunpin(b);
      if b.refcnt == 0 {
        MoveFirst(b, k);
      }
    }

    method Bpin(b: Buf)
      requires Valid() && b in order
      modifies b`refcnt
      ensures Valid() && b.refcnt == old(b.refcnt) + 1
    {
      b.refcnt := b.refcnt + 1;
    }

    /** Unpinning never moves the buffer, even when it drops the last reference. */
    method Bunpin(b: Buf)
      requires Valid() && b in order && b.refcnt > 0
      modifies b`refcnt
      ensures Valid() && b.refcnt == old(b.refcnt) - 1
    {
      b.refcnt := b.refcnt - 1;
    }
  }
}
