// The split virtqueue of kernel/virtio_disk.c against a device that takes and completes requests
// whenever it likes and in any order, all of them with success (section 2.6 of Virtual I/O Device
// (VIRTIO) Version 1.1).
//
// `IndexRing` is one of the two rings, `VirtqueueRuns` the interleavings of driver and device with
// what holds in all of them, and `VirtqueueDriver` the driver's code, each of whose steps is
// recorded as a step of such a run.

/** One ring of a split virtqueue: the producer's index and the consumer's both count modulo a
    multiple of the ring size, 2^16 in C, and are reduced to a slot only when used. */
module IndexRing {
  import opened WrapArith

  class Ring {
    const num: nat
    const wraps: nat
    const slots: array<nat>
    var pushIdx: nat
    var popIdx: nat

    ghost var pushed: seq<nat>    // everything ever put in
    ghost var popped: nat         // how many of those were taken out

    ghost predicate Valid()
      reads this, slots
    {
      && 0 < num && 2 <= wraps && slots.Length == num
      && popped <= |pushed| <= popped + num
      && pushIdx == |pushed| % (num * wraps) && popIdx == popped % (num * wraps)
      && (forall k | popped <= k < |pushed| :: slots[k % num] == pushed[k])
    }

    /** Entries put in and not taken out, oldest first. */
    ghost function Waiting(): (w: seq<nat>)
      reads this, slots
      requires Valid()
    {
      pushed[popped..]
    }

    constructor (num: nat, wraps: nat)
      requires 0 < num && 2 <= wraps
      ensures Valid() && fresh(slots) && this.num == num && Waiting() == []
    {
      this.num, this.wraps := num, wraps;
      slots := new nat[num](_ => 0);
      pushIdx, popIdx := 0, 0;
      pushed, popped := [], 0;
    }

    lemma Modulus()
      requires 0 < num && 2 <= wraps
      ensures num < num * wraps
    {
      assert num * wraps >= num * 2;
    }

    /** ring[idx % NUM] = x; idx += 1.  No waiting entry is overwritten. */
    method Push(x: nat)
      requires Valid() && |Waiting()| < num
      modifies this`pushIdx, this`pushed, slots
      ensures Valid() && Waiting() == old(Waiting()) + [x]
    {
      Modulus();
      WrapIndex(|pushed|, num, wraps);
      WrapAdd(|pushed|, 1, num * wraps);
      ghost var w := |pushed|;
      forall k | popped <= k < w ensures k % num != w % num {
        WrapDistinct(k, w, num);
      }
      slots[pushIdx % num] := x;
      pushIdx := (pushIdx + 1) % (num * wraps);
      pushed := pushed + [x];
    }

    /** The consumer's test: its index against the producer's. */
    method IsEmpty() returns (empty: bool)
      requires Valid()
      ensures empty == (Waiting() == [])
    {
      Modulus();
      empty := popIdx == pushIdx;
      WrapEqual(popped, |pushed|, num * wraps);
    }

    /** The consumer reads the slot its index names and moves on. */
    method Pop() returns (x: nat)
      requires Valid() && Waiting() != []
      modifies this`popIdx, this`popped
      ensures Valid() && [x] + Waiting() == old(Waiting())
    {
      Modulus();
      WrapIndex(popped, num, wraps);
      WrapAdd(popped, 1, num * wraps);
      x := slots[popIdx % num];
      popIdx := (popIdx + 1) % (num * wraps);
      popped := popped + 1;
    }
  }
}

module VirtqueueRuns {
  import opened Common

  /** A buffer, by name. */
  type Buf = nat

  /** What a descriptor points at. */
  datatype Target = Nothing | Header(write: bool, block: nat) | Data(b: Buf) | Status(head: nat)

  datatype Desc = Desc(target: Target, deviceWrites: bool, hasNext: bool, next: nat)

  const ZERO_DESC := Desc(Nothing, false, false, 0)

  /** disk.info[]: the buffer of the request with this head, and the status byte. */
  datatype Info = Info(b: Option<Buf>, ok: bool)

  /** Where a request is: offered to the device, taken by it, in the used ring, or seen by the
      interrupt handler and waiting for its thread to free the descriptors. */
  datatype Phase = Queued | Taken | Done | Completed

  /** A three-descriptor chain in flight, by its head. */
  datatype Req = Req(d: nat, t: nat, b: Buf, phase: Phase)

  ghost predicate Distinct(s: seq<nat>) {
    forall i, j | 0 <= i < j < |s| :: s[i] != s[j]
  }

  function Below(n: nat): (r: set<nat>)
    ensures forall i :: i in r <==> 0 <= i < n
    ensures |r| == n
  {
    if n == 0 then {} else Below(n - 1) + {n - 1}
  }

  ghost function Elements(s: seq<nat>): set<nat> { set x | x in s }

  lemma {:induction false} DistinctSize(s: seq<nat>)
    requires Distinct(s)
    ensures |Elements(s)| == |s|
  {
    if |s| > 0 {
      var rest, last := s[..|s| - 1], s[|s| - 1];
      DistinctSize(rest);
      assert last !in rest;
      assert s == rest + [last];
      assert Elements(s) == Elements(rest) + {last};
    }
  }

  /** Distinct descriptors that leave one out do not fill the ring. */
  lemma RoomFor(s: seq<nat>, x: nat, n: nat)
    requires Distinct(s) && x < n && x !in s && forall y | y in s :: y < n
    ensures |s| < n
  {
    DistinctSize(s);
    assert Elements(s) <= Below(n) - {x};
    PartSize(Elements(s), Below(n) - {x});
  }

  /** Every descriptor is free or belongs to exactly one chain. */
  ghost predicate Partition(num: nat, free: seq<bool>, own: map<nat, nat>, live: map<nat, Req>)
    requires |free| == num
  {
    && (forall i | 0 <= i < num :: free[i] <==> i !in own)
    && (forall i | i in own :: i < num && own[i] in live && (i == own[i] || i == live[own[i]].d || i == live[own[i]].t))
  }

  /** The last descriptor of the chain of head h: the device writes the status of that request. */
  predicate IsStatus(d: Desc, h: nat) { d.target == Status(h) && d.deviceWrites && !d.hasNext }

  /** The chain of head h is its three descriptors, linked in order. */
  ghost predicate Linked(num: nat, desc: seq<Desc>, own: map<nat, nat>, h: nat, r: Req)
    requires |desc| == num
  {
    && h in own && r.d in own && r.t in own && own[h] == own[r.d] == own[r.t] == h
    && h < num && r.d < num && r.t < num && h != r.d && h != r.t && r.d != r.t
    && desc[h].hasNext && desc[h].next == r.d && desc[r.d].hasNext && desc[r.d].next == r.t && IsStatus(desc[r.t], h)
  }

  ghost predicate AllLinked(num: nat, desc: seq<Desc>, own: map<nat, nat>, live: map<nat, Req>)
    requires |desc| == num
  {
    forall h | h in live :: Linked(num, desc, own, h, live[h])
  }

  lemma LiveIsOwned(num: nat, desc: seq<Desc>, own: map<nat, nat>, live: map<nat, Req>, h: nat)
    requires |desc| == num && AllLinked(num, desc, own, live)
    ensures h in live ==> h in own
  {
    if h in live { assert Linked(num, desc, own, h, live[h]); }
  }

  lemma ChainsApart(num: nat, desc: seq<Desc>, own: map<nat, nat>, live: map<nat, Req>, h: nat, g: nat)
    requires |desc| == num && AllLinked(num, desc, own, live) && h in live && g in live && h != g
    ensures Linked(num, desc, own, g, live[g])
    ensures {h, live[h].d, live[h].t} !! {g, live[g].d, live[g].t}
  {
    assert Linked(num, desc, own, h, live[h]) && Linked(num, desc, own, g, live[g]);
  }

  /** Chains do not depend on how far their requests have come. */
  lemma Rephase(num: nat, free: seq<bool>, desc: seq<Desc>, own: map<nat, nat>, live: map<nat, Req>, h: nat,
                phase: Phase)
    requires |free| == num && |desc| == num && h in live
    requires Partition(num, free, own, live) && AllLinked(num, desc, own, live)
    ensures var live' := live[h := live[h].(phase := phase)];
            Partition(num, free, own, live') && AllLinked(num, desc, own, live')
  {
    var live' := live[h := live[h].(phase := phase)];
    forall g | g in live' ensures Linked(num, desc, own, g, live'[g]) {
      assert Linked(num, desc, own, g, live[g]);
    }
  }

  lemma OldChain(num: nat, free: seq<bool>, desc: seq<Desc>, own: map<nat, nat>, live: map<nat, Req>, g: nat)
    requires |free| == num && |desc| == num && g in live
    requires Partition(num, free, own, live) && AllLinked(num, desc, own, live)
    ensures Linked(num, desc, own, g, live[g]) && !free[g] && !free[live[g].d] && !free[live[g].t]
  {
    assert Linked(num, desc, own, g, live[g]);
  }

  /** A new chain of three free descriptors leaves the others alone. */
  lemma AddChain(num: nat, free: seq<bool>, desc: seq<Desc>, desc': seq<Desc>, own: map<nat, nat>, live: map<nat, Req>,
                 h: nat, r: Req)
    requires |free| == num && |desc| == num && |desc'| == num
    requires Partition(num, free, own, live) && AllLinked(num, desc, own, live)
    requires h < num && r.d < num && r.t < num && h != r.d && h != r.t && r.d != r.t && free[h] && free[r.d] &&
             free[r.t]
    requires forall i | 0 <= i < num && i != h && i != r.d && i != r.t :: desc'[i] == desc[i]
    requires desc'[h].hasNext && desc'[h].next == r.d && desc'[r.d].hasNext && desc'[r.d].next == r.t &&
             IsStatus(desc'[r.t], h)
    ensures var own' := own[h := h][r.d := h][r.t := h];
            && Partition(num, free[h := false][r.d := false][r.t := false], own', live[h := r])
            && AllLinked(num, desc', own', live[h := r])
    ensures h !in live
  {
    LiveIsOwned(num, desc, own, live, h);
    var own', live' := own[h := h][r.d := h][r.t := h], live[h := r];
    forall g | g in live' ensures Linked(num, desc', own', g, live'[g]) {
      if g != h { OldChain(num, free, desc, own, live, g); }
    }
  }

  /** Freeing the chain of head h leaves the others alone. */
  lemma DropChain(num: nat, free: seq<bool>, free': seq<bool>, desc: seq<Desc>, desc': seq<Desc>,
                  own: map<nat, nat>, live: map<nat, Req>, h: nat)
    requires |free| == num && |free'| == num && |desc| == num && |desc'| == num && h in live
    requires Partition(num, free, own, live) && AllLinked(num, desc, own, live)
    requires forall i | 0 <= i < num :: free'[i] == (free[i] || i == h || i == live[h].d || i == live[h].t)
    requires forall i | 0 <= i < num && i != h && i != live[h].d && i != live[h].t :: desc'[i] == desc[i]
    ensures Partition(num, free', own - {h, live[h].d, live[h].t}, live - {h})
    ensures AllLinked(num, desc', own - {h, live[h].d, live[h].t}, live - {h})
  {
    assert Linked(num, desc, own, h, live[h]);
    var own', live' := own - {h, live[h].d, live[h].t}, live - {h};
    forall g | g in live' ensures Linked(num, desc', own', g, live'[g]) {
      ChainsApart(num, desc, own, live, h, g);
    }
  }

  /** Rings, requests, their buffers and their status agree. */
  ghost predicate Requests(num: nat, info: seq<Info>, busy: set<Buf>, live: map<nat, Req>, queue: seq<nat>,
                           done: seq<nat>)
    requires |info| == num
  {
    && Distinct(queue) && Distinct(done)
    && (forall h | h in queue :: h in live && live[h].phase == Queued)
    && (forall h | h in done :: h in live && live[h].phase == Done)
    && (forall h | h in live :: h < num && RequestOk(info[h], busy, h, live[h], queue, done))
    && (forall h, g | h in live && g in live && h != g :: live[h].b != live[g].b)
  }

  ghost predicate RequestOk(i: Info, busy: set<Buf>, h: nat, r: Req, queue: seq<nat>, done: seq<nat>) {
    && i.b == Some(r.b)
    && (r.phase == Queued ==> h in queue)
    && (r.phase == Done ==> h in done && i.ok)
    && (r.b in busy <==> r.phase != Completed)
  }

  lemma SubmitRequest(num: nat, info: seq<Info>, busy: set<Buf>, live: map<nat, Req>, queue: seq<nat>, done: seq<nat>,
                      h: nat, r: Req)
    requires |info| == num && Requests(num, info, busy, live, queue, done)
    requires h < num && h !in live && r.phase == Queued && forall g | g in live :: live[g].b != r.b
    ensures Requests(num, info[h := Info(Some(r.b), false)], busy + {r.b}, live[h := r], queue + [h], done)
    ensures |queue| < num && h !in queue
  {
    RoomFor(queue, h, num);
    var info', busy', live', queue' := info[h := Info(Some(r.b), false)], busy + {r.b}, live[h := r], queue + [h];
    forall g | g in live' ensures g < num && RequestOk(info'[g], busy', g, live'[g], queue', done) {
      if g != h { assert RequestOk(info[g], busy, g, live[g], queue, done); }
    }
  }

  lemma TakeRequest(num: nat, info: seq<Info>, busy: set<Buf>, live: map<nat, Req>, queue: seq<nat>, done: seq<nat>,
                    h: nat)
    requires |info| == num && Requests(num, info, busy, live, [h] + queue, done)
    ensures h in live && Requests(num, info, busy, live[h := live[h].(phase := Taken)], queue, done)
  {
    var q := [h] + queue;
    assert q[0] == h && h in q;
    var live' := live[h := live[h].(phase := Taken)];
    forall i, j | 0 <= i < j < |queue| ensures queue[i] != queue[j] {
      assert q[i + 1] != q[j + 1];
    }
    forall g | g in queue ensures g != h {
      var i :| 0 <= i < |queue| && queue[i] == g;
      assert q[i + 1] == g;
    }
    forall g | g in live' ensures g < num && RequestOk(info[g], busy, g, live'[g], queue, done) {
      assert RequestOk(info[g], busy, g, live[g], q, done);
    }
  }

  lemma ReturnRequest(num: nat, info: seq<Info>, busy: set<Buf>, live: map<nat, Req>, queue: seq<nat>, done: seq<nat>,
                      h: nat)
    requires |info| == num && Requests(num, info, busy, live, queue, done)
    requires h in live && live[h].phase == Taken && h < num
    ensures Requests(num, info[h := info[h].(ok := true)], busy, live[h := live[h].(phase := Done)], queue, done + [h])
    ensures |done| < num
  {
    RoomFor(done, h, num);
    var info', live', done' := info[h := info[h].(ok := true)], live[h := live[h].(phase := Done)], done + [h];
    forall g | g in live' ensures g < num && RequestOk(info'[g], busy, g, live'[g], queue, done') {
      assert RequestOk(info[g], busy, g, live[g], queue, done);
    }
  }

  /** The interrupt handler sees one used entry: it is a request of ours, its status is good,
      and it completes that request's buffer, which was still busy, and no other. */
  lemma SeeRequest(num: nat, info: seq<Info>, busy: set<Buf>, live: map<nat, Req>, queue: seq<nat>, done: seq<nat>,
                   h: nat)
    requires |info| == num && Requests(num, info, busy, live, queue, [h] + done)
    ensures h in live && h < num && info[h].ok && info[h].b == Some(live[h].b) && live[h].b in busy
    ensures Requests(num, info, busy - {live[h].b}, live[h := live[h].(phase := Completed)], queue, done)
  {
    var q := [h] + done;
    assert q[0] == h && h in q;
    assert RequestOk(info[h], busy, h, live[h], queue, q);
    var busy', live' := busy - {live[h].b}, live[h := live[h].(phase := Completed)];
    forall i, j | 0 <= i < j < |done| ensures done[i] != done[j] {
      assert q[i + 1] != q[j + 1];
    }
    forall g | g in done ensures g != h {
      var i :| 0 <= i < |done| && done[i] == g;
      assert q[i + 1] == g;
    }
    forall g | g in live' ensures g < num && RequestOk(info[g], busy', g, live'[g], queue, done) {
      assert RequestOk(info[g], busy, g, live[g], queue, q);
    }
  }

  lemma DropRequest(num: nat, info: seq<Info>, busy: set<Buf>, live: map<nat, Req>, queue: seq<nat>, done: seq<nat>,
                    h: nat)
    requires |info| == num && Requests(num, info, busy, live, queue, done)
    requires h in live && live[h].phase == Completed && h < num
    ensures Requests(num, info[h := info[h].(b := None)], busy, live - {h}, queue, done)
  {
    var info', live' := info[h := info[h].(b := None)], live - {h};
    forall g | g in live' ensures g < num && RequestOk(info'[g], busy, g, live'[g], queue, done) {
      assert RequestOk(info[g], busy, g, live[g], queue, done);
    }
  }

  /** Clearing free descriptors does not touch chains in flight. */
  lemma KeepLinks(num: nat, desc: seq<Desc>, desc': seq<Desc>, free: seq<bool>, own: map<nat, nat>, live: map<nat, Req>)
    requires |desc| == num && |desc'| == num && |free| == num
    requires Partition(num, free, own, live) && AllLinked(num, desc, own, live)
    requires forall k | 0 <= k < num && !free[k] :: desc'[k] == desc[k]
    ensures AllLinked(num, desc', own, live)
  {
    forall h | h in live ensures Linked(num, desc', own, h, live[h]) {
      assert Linked(num, desc, own, h, live[h]);
    }
  }

  // ---------------------------------------------------------------------------------------
  // Runs of driver and device.

  /** The queue as the driver's and the device's memory holds it; `own` and `live` record which
      chain each descriptor in use belongs to. */
  datatype State = State(free: seq<bool>, desc: seq<Desc>, info: seq<Info>, busy: set<Buf>,
                         own: map<nat, nat>, live: map<nat, Req>, queue: seq<nat>, done: seq<nat>)

  datatype Event =
    | Submit(b: Buf, write: bool, block: nat, h: nat, d: nat, t: nat)
    | Scrub(desc: seq<Desc>)  // a failed alloc3_desc: only free descriptors may be cleared
    | Take                    // the device reads the avail ring
    | Return(h: nat)          // the device completes a request it has taken
    | See                     // virtio_disk_intr handles one used entry
    | Finish(h: nat)          // the thread of a completed request frees its chain

  ghost predicate Boot(num: nat, s: State) {
    && |s.free| == num && |s.desc| == num && |s.info| == num && (forall i | 0 <= i < num :: s.free[i])
    && s.busy == {} && s.own == map[] && s.live == map[] && s.queue == [] && s.done == []
  }

  ghost predicate Enabled(num: nat, s: State, e: Event)
    requires |s.free| == num && |s.desc| == num && |s.info| == num
  {
    match e
    case Submit(b, _, _, h, d, t) =>
      && h < num && d < num && t < num && h != d && h != t && d != t && s.free[h] && s.free[d] && s.free[t]
      && (forall g | g in s.live :: s.live[g].b != b)   // the caller holds the buffer's lock
    case Scrub(desc) => |desc| == num && forall i | 0 <= i < num && !s.free[i] :: desc[i] == s.desc[i]
    case Take => s.queue != []
    case Return(h) => h in s.live && s.live[h].phase == Taken && h < num
    case See => s.done != [] && s.done[0] in s.live && s.done[0] < num
    case Finish(h) => h in s.live && h < num && s.live[h].d < num && s.live[h].t < num && s.live[h].b !in s.busy
  }

  ghost function Formatted(desc: seq<Desc>, e: Event): seq<Desc>
    requires e.Submit? && e.h < |desc| && e.d < |desc| && e.t < |desc|
  {
    desc[e.h := Desc(Header(e.write, e.block), false, true, e.d)]
        [e.d := Desc(Data(e.b), !e.write, true, e.t)]
        [e.t := Desc(Status(e.h), true, false, 0)]
  }

  /** Whose status the device may write: the last descriptor of the chain from h says. */
  function StatusOf(desc: seq<Desc>, h: nat): Option<nat> {
    if h < |desc| && desc[h].hasNext && desc[h].next < |desc| then
      var d := desc[h].next;
      if desc[d].hasNext && desc[d].next < |desc| then
        var t := desc[desc[d].next];
        if t.deviceWrites && t.target.Status? then Some(t.target.head) else None
      else None
    else None
  }

  ghost function StatusWritten(desc: seq<Desc>, info: seq<Info>, h: nat): seq<Info> {
    var k := StatusOf(desc, h);
    if k.Some? && k.value < |info| then info[k.value := info[k.value].(ok := true)] else info
  }

  lemma StatusOfChain(num: nat, desc: seq<Desc>, own: map<nat, nat>, live: map<nat, Req>, h: nat)
    requires |desc| == num && AllLinked(num, desc, own, live) && h in live
    ensures h < num && StatusOf(desc, h) == Some(h)
  {
    assert Linked(num, desc, own, h, live[h]);
  }

  ghost function Rephased(live: map<nat, Req>, h: nat, phase: Phase): map<nat, Req> {
    if h in live then live[h := live[h].(phase := phase)] else live
  }

  ghost function Next(num: nat, s: State, e: Event): State
    requires |s.free| == num && |s.desc| == num && |s.info| == num && Enabled(num, s, e)
  {
    match e
    case Submit(b, write, block, h, d, t) =>
      State(s.free[h := false][d := false][t := false], Formatted(s.desc, e), s.info[h := Info(Some(b), false)],
            s.busy + {b}, s.own[h := h][d := h][t := h], s.live[h := Req(d, t, b, Queued)], s.queue + [h], s.done)
    case Scrub(desc) => s.(desc := desc)
    case Take => s.(live := Rephased(s.live, s.queue[0], Taken), queue := s.queue[1..])
    case Return(h) =>
      s.(info := StatusWritten(s.desc, s.info, h), live := Rephased(s.live, h, Done), done := s.done + [h])
    case See =>
      var h := s.done[0];
      s.(busy := if s.info[h].b.Some? then s.busy - {s.info[h].b.value} else s.busy,
         live := Rephased(s.live, h, Completed), done := s.done[1..])
    case Finish(h) =>
      var r := s.live[h];
      s.(free := s.free[h := true][r.d := true][r.t := true],
         desc := s.desc[h := ZERO_DESC][r.d := ZERO_DESC][r.t := ZERO_DESC],
         info := s.info[h := s.info[h].(b := None)], own := s.own - {h, r.d, r.t}, live := s.live - {h})
  }

  ghost predicate Inv(num: nat, s: State) {
    && |s.free| == num && |s.desc| == num && |s.info| == num
    && Partition(num, s.free, s.own, s.live) && AllLinked(num, s.desc, s.own, s.live)
    && Requests(num, s.info, s.busy, s.live, s.queue, s.done)
  }

  lemma SubmitKeeps(num: nat, s: State, e: Event)
    requires Inv(num, s) && e.Submit? && Enabled(num, s, e)
    ensures Inv(num, Next(num, s, e))
  {
    var r := Req(e.d, e.t, e.b, Queued);
    AddChain(num, s.free, s.desc, Formatted(s.desc, e), s.own, s.live, e.h, r);
    SubmitRequest(num, s.info, s.busy, s.live, s.queue, s.done, e.h, r);
  }

  lemma TakeKeeps(num: nat, s: State)
    requires Inv(num, s) && Enabled(num, s, Take)
    ensures Inv(num, Next(num, s, Take))
  {
    assert s.queue == [s.queue[0]] + s.queue[1..];
    TakeRequest(num, s.info, s.busy, s.live, s.queue[1..], s.done, s.queue[0]);
    Rephase(num, s.free, s.desc, s.own, s.live, s.queue[0], Taken);
  }

  lemma ReturnKeeps(num: nat, s: State, h: nat)
    requires Inv(num, s) && Enabled(num, s, Return(h))
    ensures Inv(num, Next(num, s, Return(h)))
  {
    assert StatusWritten(s.desc, s.info, h) == s.info[h := s.info[h].(ok := true)] by {
      StatusOfChain(num, s.desc, s.own, s.live, h);
    }
    ReturnRequest(num, s.info, s.busy, s.live, s.queue, s.done, h);
    Rephase(num, s.free, s.desc, s.own, s.live, h, Done);
  }

  lemma SeeKeeps(num: nat, s: State)
    requires Inv(num, s) && Enabled(num, s, See)
    ensures Inv(num, Next(num, s, See))
  {
    assert s.done == [s.done[0]] + s.done[1..];
    SeeRequest(num, s.info, s.busy, s.live, s.queue, s.done[1..], s.done[0]);
    Rephase(num, s.free, s.desc, s.own, s.live, s.done[0], Completed);
  }

  lemma FinishKeeps(num: nat, s: State, h: nat)
    requires Inv(num, s) && Enabled(num, s, Finish(h))
    ensures Inv(num, Next(num, s, Finish(h)))
  {
    var s' := Next(num, s, Finish(h));
    DropChain(num, s.free, s'.free, s.desc, s'.desc, s.own, s.live, h);
    assert RequestOk(s.info[h], s.busy, h, s.live[h], s.queue, s.done);
    DropRequest(num, s.info, s.busy, s.live, s.queue, s.done, h);
  }

  lemma StepKeeps(num: nat, s: State, e: Event)
    requires Inv(num, s) && Enabled(num, s, e)
    ensures Inv(num, Next(num, s, e))
  {
    match e
    case Submit(_, _, _, _, _, _) => SubmitKeeps(num, s, e);
    case Scrub(desc) => KeepLinks(num, s.desc, desc, s.free, s.own, s.live);
    case Take => TakeKeeps(num, s);
    case Return(h) => ReturnKeeps(num, s, h);
    case See => SeeKeeps(num, s);
    case Finish(h) => FinishKeeps(num, s, h);
  }

  datatype Trace = Start | Then(before: Trace, e: Event)

  ghost predicate Reached(num: nat, tr: Trace, s: State)
    decreases tr
  {
    match tr
    case Start => Boot(num, s)
    case Then(before, e) =>
      exists s1 ::
        && Reached(num, before, s1) && |s1.free| == num && |s1.desc| == num && |s1.info| == num
        && Enabled(num, s1, e) && s == Next(num, s1, e)
  }

  lemma {:induction false} RunInv(num: nat, tr: Trace, s: State)
    requires Reached(num, tr, s)
    ensures Inv(num, s)
  {
    if tr.Then? {
      var s1 :| && Reached(num, tr.before, s1) && |s1.free| == num && |s1.desc| == num && |s1.info| == num
                && Enabled(num, s1, tr.e) && s == Next(num, s1, tr.e);
      RunInv(num, tr.before, s1);
      StepKeeps(num, s1, tr.e);
    }
  }

  /** At every moment of every run a descriptor is either free or in an in-flight chain. */
  lemma DescriptorInUse(num: nat, tr: Trace, s: State, i: nat)
    requires Reached(num, tr, s) && i < num
    ensures |s.free| == num
    ensures !s.free[i] <==> exists h | h in s.live :: i in {h, s.live[h].d, s.live[h].t}
  {
    RunInv(num, tr, s);
    forall h | h in s.live && i in {h, s.live[h].d, s.live[h].t} ensures !s.free[i] {
      assert Linked(num, s.desc, s.own, h, s.live[h]);
    }
  }

  /** Every chain has three descriptors linked in order, and different chains share none. */
  lemma ChainsDisjoint(num: nat, tr: Trace, s: State, h: nat, g: nat)
    requires Reached(num, tr, s) && h in s.live && g in s.live
    ensures |s.desc| == num && Linked(num, s.desc, s.own, h, s.live[h])
    ensures h != g ==> {h, s.live[h].d, s.live[h].t} !! {g, s.live[g].d, s.live[g].t}
  {
    RunInv(num, tr, s);
    if h != g { ChainsApart(num, s.desc, s.own, s.live, h, g); }
  }

  /** Every used entry the handler comes to is a request in flight with a good status, whose own
      buffer is still waiting. */
  lemma UsedIsDone(num: nat, tr: Trace, s: State)
    requires Reached(num, tr, s) && s.done != []
    ensures |s.free| == num && |s.desc| == num && |s.info| == num && Enabled(num, s, See)
    ensures var h := s.done[0];
            && s.live[h].phase == Done && s.info[h].ok && s.info[h].b == Some(s.live[h].b) && s.live[h].b in s.busy
            && h !in s.done[1..]
  {
    RunInv(num, tr, s);
    var h := s.done[0];
    assert h in s.done;
    assert RequestOk(s.info[h], s.busy, h, s.live[h], s.queue, s.done);
  }

  /** Handling a used entry completes its own buffer and no other request's. */
  lemma CompletesItsOwn(num: nat, tr: Trace, s: State, g: nat)
    requires Reached(num, tr, s) && s.done != [] && g in s.live
    ensures |s.free| == num && |s.desc| == num && |s.info| == num && Enabled(num, s, See)
    ensures var h, s' := s.done[0], Next(num, s, See);
            && s'.live[h].phase == Completed && s.live[h].b in s.busy && s.live[h].b !in s'.busy && h !in s'.done
            && (g != h ==> s'.live[g] == s.live[g] && (s.live[g].b in s'.busy <==> s.live[g].b in s.busy))
  {
    UsedIsDone(num, tr, s);
    RunInv(num, tr, s);
  }

  /** There is always room in both rings: the entries waiting leave at least one slot for any
      descriptor that is not among them. */
  lemma RingsHaveRoom(num: nat, tr: Trace, s: State, h: nat)
    requires Reached(num, tr, s) && h < num
    ensures h !in s.queue ==> |s.queue| < num
    ensures h !in s.done ==> |s.done| < num
  {
    RunInv(num, tr, s);
    if h !in s.queue { RoomFor(s.queue, h, num); }
    if h !in s.done { RoomFor(s.done, h, num); }
  }

  /** What the device finds when it completes a request: the chain leads it to that request's status. */
  lemma ReturnShape(num: nat, tr: Trace, s: State, h: nat)
    requires Reached(num, tr, s) && h in s.live
    ensures |s.desc| == num && |s.info| == num && h < num && s.desc[h].next < num && s.desc[s.desc[h].next].next < num
    ensures s.desc[s.desc[s.desc[h].next].next].target == Status(h)
    ensures StatusWritten(s.desc, s.info, h) == s.info[h := s.info[h].(ok := true)]
  {
    RunInv(num, tr, s);
    assert Linked(num, s.desc, s.own, h, s.live[h]);
  }

  /** What the driver's code may rely on when it frees the chain of a completed request. */
  lemma FinishShape(num: nat, tr: Trace, s: State, h: nat)
    requires Reached(num, tr, s) && h in s.live
    ensures |s.free| == num && |s.desc| == num && |s.info| == num && h < num && Linked(num, s.desc, s.own, h, s.live[h])
    ensures !s.free[h] && !s.free[s.live[h].d] && !s.free[s.live[h].t]
  {
    RunInv(num, tr, s);
    assert Linked(num, s.desc, s.own, h, s.live[h]);
  }

  lemma IdleShape(num: nat, tr: Trace, s: State, h: nat)
    requires Reached(num, tr, s) && h < num && |s.free| == num && s.free[h]
    ensures h !in s.queue && h !in s.done && h !in s.live
  {
    RunInv(num, tr, s);
    LiveIsOwned(num, s.desc, s.own, s.live, h);
  }

  lemma QueueShape(num: nat, tr: Trace, s: State)
    requires Reached(num, tr, s)
    ensures |s.free| == num && |s.desc| == num && |s.info| == num
    ensures forall h | h in s.queue :: h in s.live && s.live[h].phase == Queued
    ensures forall h | h in s.live :: h < num && (s.live[h].phase == Taken ==> h !in s.done)
  {
    RunInv(num, tr, s);
  }
}

/** The driver's code and the device's steps, over arrays. */
module VirtqueueDriver {
  import opened Common
  import opened IndexRing
  import opened VirtqueueRuns

  class Disk {
    const num: nat              // NUM
    const free: array<bool>
    const desc: array<Desc>
    const info: array<Info>
    const avail: Ring           // avail->ring and avail->idx, read by the device
    const used: Ring            // used->ring and used->idx, read up to disk.used_idx
    var busy: set<Buf>          // buffers with b->disk == 1

    ghost var own: map<nat, nat>
    ghost var live: map<nat, Req>
    ghost var trace: Trace

    ghost predicate Shape()
      reads this, avail, avail.slots, used, used.slots
    {
      && free.Length == num && desc.Length == num && info.Length == num
      && avail != used && avail.slots != used.slots
      && avail.num == num && used.num == num && avail.Valid() && used.Valid()
    }

    ghost function Abs(): State
      reads this, free, desc, info, avail, avail.slots, used, used.slots
      requires Shape()
    {
      State(free[..], desc[..], info[..], busy, own, live, avail.Waiting(), used.Waiting())
    }

    ghost predicate Valid()
      reads this, free, desc, info, avail, avail.slots, used, used.slots
    {
      Shape() && Reached(num, trace, Abs())
    }

    /** virtio_disk_init, the queue part. */
    constructor (num: nat, wraps: nat)
      requires 0 < num && 2 <= wraps
      ensures Valid() && this.num == num && live == map[] && busy == {}
      ensures fresh(free) && fresh(desc) && fresh(info) && fresh(avail) && fresh(used)
      ensures fresh(avail.slots) && fresh(used.slots)
    {
      this.num := num;
      free := new bool[num](_ => true);
      desc := new Desc[num](_ => ZERO_DESC);
      info := new Info[num](_ => Info(None, false));
      avail := new Ring(num, wraps);
      used := new Ring(num, wraps);
      busy := {};
      own, live, trace := map[], map[], Start;
    }

    /** Records that the state has just been changed by step e. */
    ghost method Record(before: State, e: Event)
      requires Shape() && Reached(num, trace, before)
      requires |before.free| == num && |before.desc| == num && |before.info| == num
      requires Enabled(num, before, e) && Abs() == Next(num, before, e)
      modifies this`trace
      ensures Valid() && trace == Then(old(trace), e) && Abs() == old(Abs())
    {
      trace := Then(trace, e);
    }

    /** alloc_desc: the first free descriptor, now marked in use; num if there is none. */
    method AllocDesc() returns (i: nat)
      requires free.Length == num
      modifies free
      ensures i <= num
      ensures i < num ==> old(free[i]) && free[..] == old(free[..])[i := false]
      ensures i == num ==> free[..] == old(free[..]) && forall k | 0 <= k < num :: !free[k]
    {
      i := 0;
      while i < num
        invariant 0 <= i <= num && free[..] == old(free[..])
        invariant forall k | 0 <= k < i :: !free[k]
      {
        if free[i] {
          free[i] := false;
          return;
        }
        i := i + 1;
      }
    }

    /** free_desc, on a descriptor in use. */
    method FreeDesc(i: nat)
      requires free.Length == num && desc.Length == num && i < num && !free[i]
      modifies free, desc
      ensures free[..] == old(free[..])[i := true] && desc[..] == old(desc[..])[i := ZERO_DESC]
    {
      desc[i] := ZERO_DESC;
      free[i] := true;
    }

    /** alloc3_desc: three distinct free descriptors, or the free set as it was. */
    method Alloc3() returns (ok: bool, h: nat, d: nat, t: nat)
      requires free.Length == num && desc.Length == num
      modifies free, desc
      ensures ok ==> h < num && d < num && t < num && h != d && h != t && d != t
      ensures ok ==> old(free[h]) && old(free[d]) && old(free[t])
      ensures ok ==> free[..] == old(free[..])[h := false][d := false][t := false] && desc[..] == old(desc[..])
      ensures !ok ==> free[..] == old(free[..])
      ensures !ok ==> forall k | 0 <= k < num && !free[k] :: desc[k] == old(desc[k])
    {
      ok, h, d, t := false, 0, 0, 0;
      h := AllocDesc();
      if h == num { return; }
      d := AllocDesc();
      if d == num {
        FreeDesc(h);
        return;
      }
      t := AllocDesc();
      if t == num {
        FreeDesc(h);
        FreeDesc(d);
        return;
      }
      ok := true;
    }

    /** free_chain: follow the links from h, freeing each descriptor. */
    method FreeChain(h: nat, ghost d: nat, ghost t: nat)
      requires free.Length == num && desc.Length == num
      requires h < num && d < num && t < num && h != d && h != t && d != t && !free[h] && !free[d] && !free[t]
      requires desc[h].hasNext && desc[h].next == d && desc[d].hasNext && desc[d].next == t && !desc[t].hasNext
      modifies free, desc
      ensures free[..] == old(free[..])[h := true][d := true][t := true]
      ensures desc[..] == old(desc[..])[h := ZERO_DESC][d := ZERO_DESC][t := ZERO_DESC]
    {
      var i, more := h, true;
      ghost var freed := {};
      while more
        invariant more ==> (freed == {} && i == h) || (freed == {h} && i == d) || (freed == {h, d} && i == t)
        invariant !more ==> freed == {h, d, t}
        invariant forall k | 0 <= k < num :: free[k] == (old(free[k]) || k in freed)
        invariant forall k | 0 <= k < num :: desc[k] == if k in freed then ZERO_DESC else old(desc[k])
        decreases {h, d, t} - freed
      {
        var flag, next := desc[i].hasNext, desc[i].next;
        FreeDesc(i);
        freed := freed + {i};
        if flag {
          i := next;
        } else {
          more := false;
        }
      }
    }

    /** The three descriptors of a request: header, data, status. */
    method Format(e: Event)
      requires e.Submit? && desc.Length == num && e.h < num && e.d < num && e.t < num
      modifies desc
      ensures desc[..] == Formatted(old(desc[..]), e)
    {
      desc[e.h] := Desc(Header(e.write, e.block), false, true, e.d);
      desc[e.d] := Desc(Data(e.b), !e.write, true, e.t);
      desc[e.t] := Desc(Status(e.h), true, false, 0);
    }

    /** virtio_disk_rw up to its wait: false if there are not three free descriptors, and the
        thread sleeps.  The caller holds the buffer, so no request for it is in flight. */
    method Submit(b: Buf, write: bool, block: nat) returns (ok: bool, h: nat)
      requires Valid() && forall g | g in live :: live[g].b != b
      modifies this, free, desc, info, avail, avail.slots
      ensures Valid()
      ensures ok ==> exists d, t :: trace == Then(old(trace), Event.Submit(b, write, block, h, d, t))
      ensures !ok ==> exists cleared :: trace == Then(old(trace), Scrub(cleared))
      ensures !ok ==> free[..] == old(free[..])
    {
      ghost var s := Abs();
      QueueShape(num, trace, s);
      var d, t;
      ok, h, d, t := Alloc3();
      if !ok {
        Record(s, Scrub(desc[..]));
        return;
      }
      IdleShape(num, trace, s, h);
      RingsHaveRoom(num, trace, s, h);
      var e := Event.Submit(b, write, block, h, d, t);
      Format(e);
      info[h] := Info(Some(b), false);
      busy := busy + {b};
      avail.Push(h);
      own, live := own[h := h][d := h][t := h], live[h := Req(d, t, b, Queued)];
      Record(s, e);
    }

    /** The device reads the next entry of the avail ring, if there is one. */
    method DeviceTake() returns (got: bool, h: nat)
      requires Valid()
      modifies this, avail`popIdx, avail`popped
      ensures Valid() && got == (old(avail.Waiting()) != [])
      ensures got ==> h == old(avail.Waiting())[0] && trace == Then(old(trace), Take)
      ensures !got ==> trace == old(trace) && Abs() == old(Abs())
    {
      h := 0;
      var empty := avail.IsEmpty();
      got := !empty;
      if got {
        ghost var s := Abs();
        QueueShape(num, trace, s);
        h := avail.Pop();
        assert s.queue[0] == h;
        live := Rephased(live, h, Taken);
        Record(s, Take);
      }
    }

    /** The device completes any request it has taken, and writes the status its chain names. */
    method DeviceReturn(h: nat)
      requires Valid() && h in live && live[h].phase == Taken
      modifies this, info, used, used.slots
      ensures Valid() && trace == Then(old(trace), Return(h))
    {
      ghost var s := Abs();
      QueueShape(num, trace, s);
      RingsHaveRoom(num, trace, s, h);
      ReturnShape(num, trace, s, h);
      var k := desc[desc[desc[h].next].next].target.head;
      info[k] := info[k].(ok := true);
      assert info[..] == StatusWritten(s.desc, s.info, h);
      used.Push(h);
      live := Rephased(live, h, Done);
      Record(s, Return(h));
    }

    /** One round of virtio_disk_intr's loop.  The device has written the status of the request it
        comes to, and as the device succeeds, the status panic does not happen. */
    method SeeOne() returns (id: nat)
      requires Valid() && used.Waiting() != []
      modifies this, used`popIdx, used`popped
      ensures Valid() && trace == Then(old(trace), See) && id < num && info[id].ok
      ensures [id] + used.Waiting() == old(used.Waiting())
    {
      ghost var s := Abs();
      UsedIsDone(num, trace, s);
      id := used.Pop();
      assert s.done[0] == id;
      busy := busy - {info[id].b.value};
      live := Rephased(live, id, Completed);
      Record(s, See);
    }

    /** virtio_disk_intr: handles every entry of the used ring, in order. */
    method Intr() returns (ghost seen: seq<nat>)
      requires Valid()
      modifies this, used`popIdx, used`popped
      ensures Valid() && used.Waiting() == [] && seen == old(used.Waiting())
    {
      seen := [];
      var empty := used.IsEmpty();
      while !empty
        invariant Valid() && empty == (used.Waiting() == [])
        invariant seen + used.Waiting() == old(used.Waiting())
        decreases |used.Waiting()|
      {
        var id := SeeOne();
        seen := seen + [id];
        empty := used.IsEmpty();
      }
    }

    /** virtio_disk_rw after its wait: b->disk is 0, so the descriptors are freed. */
    method Finish(h: nat)
      requires Valid() && h in live && live[h].b !in busy
      modifies this, free, desc, info
      ensures Valid() && trace == Then(old(trace), Event.Finish(h))
    {
      ghost var s := Abs();
      ghost var r := live[h];
      FinishShape(num, trace, s, h);
      info[h] := info[h].(b := None);
      FreeChain(h, r.d, r.t);
      own, live := own - {h, r.d, r.t}, live - {h};
      Record(s, Event.Finish(h));
    }
  }
}
