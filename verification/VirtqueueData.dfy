/** What the disk requests of kernel/virtio_disk.c transfer.

    The device does what the descriptors say when it completes a request; the theorems say that this
    is what was asked for when the request was submitted. */
module VirtqueueData {
  import opened Common
  import opened VirtqueueRuns

  type Content = seq<Byte>

  /** The data of the buffers and of the disk's blocks. */
  datatype Memory = Memory(bufs: map<Buf, Content>, disk: map<nat, Content>)

  function At(m: map<nat, Content>, k: nat): Content { if k in m then m[k] else [] }

  /** The device follows the chain from head h: a header, then the data it may read or write. */
  ghost function Transfer(desc: seq<Desc>, h: nat, m: Memory): Memory {
    if h < |desc| && desc[h].target.Header? && desc[h].hasNext && desc[h].next < |desc| then
      var block, data := desc[h].target.block, desc[desc[h].next];
      if !data.target.Data? || data.deviceWrites == desc[h].target.write then m
      else if desc[h].target.write then m.(disk := m.disk[block := At(m.bufs, data.target.b)])
      else m.(bufs := m.bufs[data.target.b := At(m.disk, block)])
    else m
  }

  /** A request as its caller made it, with the contents of the buffer and of the block at that time. */
  datatype Ask = Ask(b: Buf, write: bool, block: nat, buf: Content, disk: Content)

  datatype System = System(s: State, m: Memory, asks: map<nat, Ask>)

  /** A step of driver or device, or a change of a buffer by the thread that holds it. */
  datatype Step = Do(e: Event) | Change(b: Buf, v: Content)

  ghost predicate Sized(num: nat, s: State) { |s.free| == num && |s.desc| == num && |s.info| == num }

  ghost predicate Can(num: nat, x: System, st: Step)
    requires Sized(num, x.s)
  {
    match st
    case Do(e) =>
      && Enabled(num, x.s, e)
      && (e.Submit? ==> forall g | g in x.asks :: x.asks[g].block != e.block)   // a block has one buffer
    case Change(b, _) => forall g | g in x.s.live :: x.s.live[g].b != b
  }

  ghost function After(num: nat, x: System, st: Step): System
    requires Sized(num, x.s) && Can(num, x, st)
  {
    match st
    case Change(b, v) => x.(m := x.m.(bufs := x.m.bufs[b := v]))
    case Do(e) =>
      var s := Next(num, x.s, e);
      match e
      case Submit(b, write, block, h, _, _) =>
        System(s, x.m, x.asks[h := Ask(b, write, block, At(x.m.bufs, b), At(x.m.disk, block))])
      case Return(h) => System(s, Transfer(x.s.desc, h, x.m), x.asks)
      case Finish(h) => System(s, x.m, x.asks - {h})
      case _ => x.(s := s)
  }

  /** The chain says what was asked for. */
  ghost predicate Says(num: nat, desc: seq<Desc>, h: nat, r: Req, a: Ask)
    requires |desc| == num
  {
    && h < num && r.d < num && r.b == a.b && desc[h].hasNext && desc[h].next == r.d
    && desc[h].target == Header(a.write, a.block)
    && desc[r.d].target == Data(a.b) && desc[r.d].deviceWrites == !a.write
  }

  /** Until the device completes it nothing has moved; then buffer and block are the same, and hold
      what the buffer held if it was a write, and what the block held if it was a read. */
  ghost predicate Moved(m: Memory, r: Req, a: Ask) {
    if r.phase.Queued? || r.phase.Taken? then At(m.bufs, a.b) == a.buf && At(m.disk, a.block) == a.disk
    else At(m.bufs, a.b) == At(m.disk, a.block) == if a.write then a.buf else a.disk
  }

  ghost predicate AllSay(num: nat, desc: seq<Desc>, live: map<nat, Req>, asks: map<nat, Ask>) {
    |desc| == num && asks.Keys == live.Keys && forall h | h in asks && h in live :: Says(num, desc, h, live[h], asks[h])
  }

  ghost predicate AllMoved(m: Memory, live: map<nat, Req>, asks: map<nat, Ask>) {
    forall h | h in asks && h in live :: Moved(m, live[h], asks[h])
  }

  /** Requests in flight are for different buffers and different blocks. */
  ghost predicate Apart(asks: map<nat, Ask>) {
    forall h, g | h in asks && g in asks && h != g :: asks[h].block != asks[g].block && asks[h].b != asks[g].b
  }

  ghost predicate Good(num: nat, x: System) {
    AllSay(num, x.s.desc, x.s.live, x.asks) && AllMoved(x.m, x.s.live, x.asks) && Apart(x.asks)
  }

  // ---------------------------------------------------------------------------------------
  // What the driver's invariant says of the descriptors that a step changes.

  /** The first two descriptors of these chains say the same. */
  ghost predicate SameFor(num: nat, desc: seq<Desc>, desc': seq<Desc>, live: map<nat, Req>)
    requires |desc| == num && |desc'| == num
  {
    forall g | g in live && g < num && live[g].d < num :: desc'[g] == desc[g] && desc'[live[g].d] == desc[live[g].d]
  }

  lemma SubmitShape(num: nat, tr: Trace, s: State, e: Event)
    requires Reached(num, tr, s) && Sized(num, s) && e.Submit? && Enabled(num, s, e)
    ensures e.h !in s.live && SameFor(num, s.desc, Formatted(s.desc, e), s.live)
  {
    IdleShape(num, tr, s, e.h);
    forall g | g in s.live ensures g !in {e.h, e.d, e.t} && s.live[g].d !in {e.h, e.d, e.t} {
      FinishShape(num, tr, s, g);
    }
  }

  lemma ScrubShape(num: nat, tr: Trace, s: State, desc: seq<Desc>)
    requires Reached(num, tr, s) && Sized(num, s) && Enabled(num, s, Scrub(desc))
    ensures SameFor(num, s.desc, desc, s.live)
  {
    forall g | g in s.live ensures g < num && s.live[g].d < num && !s.free[g] && !s.free[s.live[g].d] {
      FinishShape(num, tr, s, g);
    }
  }

  lemma FinishedShape(num: nat, tr: Trace, s: State, h: nat, s': State)
    requires Reached(num, tr, s) && Sized(num, s) && Enabled(num, s, Finish(h)) && s' == Next(num, s, Finish(h))
    ensures |s'.desc| == num && SameFor(num, s.desc, s'.desc, s.live - {h})
  {
    forall g | g in s.live && g != h
      ensures g !in {h, s.live[h].d, s.live[h].t} && s.live[g].d !in {h, s.live[h].d, s.live[h].t}
    {
      ChainsDisjoint(num, tr, s, h, g);
    }
  }

  // ---------------------------------------------------------------------------------------
  // Every step keeps what is asked and what has moved in agreement.

  lemma SubmitGood(num: nat, tr: Trace, x: System, e: Event)
    requires Reached(num, tr, x.s) && Sized(num, x.s) && Good(num, x) && e.Submit? && Can(num, x, Do(e))
    ensures Good(num, After(num, x, Do(e)))
  {
    SubmitShape(num, tr, x.s, e);
    var r, a := Req(e.d, e.t, e.b, Queued), Ask(e.b, e.write, e.block, At(x.m.bufs, e.b), At(x.m.disk, e.block));
    assert Says(num, Formatted(x.s.desc, e), e.h, r, a);
    AskMore(num, x, e.h, Formatted(x.s.desc, e), r, a);
  }

  lemma AskMore(num: nat, x: System, h: nat, desc': seq<Desc>, r: Req, a: Ask)
    requires Good(num, x) && |desc'| == num && Says(num, desc', h, r, a) && h !in x.s.live
    requires SameFor(num, x.s.desc, desc', x.s.live) && Moved(x.m, r, a)
    requires forall g | g in x.s.live :: x.s.live[g].b != a.b
    requires forall g | g in x.asks :: x.asks[g].block != a.block
    ensures AllSay(num, desc', x.s.live[h := r], x.asks[h := a])
    ensures AllMoved(x.m, x.s.live[h := r], x.asks[h := a]) && Apart(x.asks[h := a])
  {
    SayMore(num, x.s.desc, desc', x.s.live, x.asks, h, r, a);
    forall g | g in x.asks ensures x.asks[g].b != a.b {
      assert Says(num, x.s.desc, g, x.s.live[g], x.asks[g]);
    }
  }

  lemma SayMore(num: nat, desc: seq<Desc>, desc': seq<Desc>, live: map<nat, Req>, asks: map<nat, Ask>, h: nat, r: Req,
                a: Ask)
    requires AllSay(num, desc, live, asks) && |desc'| == num && Says(num, desc', h, r, a) && h !in live
    requires SameFor(num, desc, desc', live)
    ensures AllSay(num, desc', live[h := r], asks[h := a])
  {
    forall g | g in asks ensures Says(num, desc', g, live[g], asks[g]) {
      assert Says(num, desc, g, live[g], asks[g]);
    }
  }

  lemma SaySame(num: nat, desc: seq<Desc>, desc': seq<Desc>, live: map<nat, Req>, asks: map<nat, Ask>)
    requires AllSay(num, desc, live, asks) && |desc'| == num
    requires SameFor(num, desc, desc', live)
    ensures AllSay(num, desc', live, asks)
  {
    forall g | g in asks ensures Says(num, desc', g, live[g], asks[g]) {
      assert Says(num, desc, g, live[g], asks[g]);
    }
  }

  lemma ScrubGood(num: nat, tr: Trace, x: System, e: Event)
    requires Reached(num, tr, x.s) && Sized(num, x.s) && Good(num, x) && e.Scrub? && Can(num, x, Do(e))
    ensures Good(num, After(num, x, Do(e)))
  {
    ScrubShape(num, tr, x.s, e.desc);
    SaySame(num, x.s.desc, e.desc, x.s.live, x.asks);
  }

  lemma FinishGood(num: nat, tr: Trace, x: System, h: nat)
    requires Reached(num, tr, x.s) && Sized(num, x.s) && Good(num, x) && Can(num, x, Do(Finish(h)))
    ensures Good(num, After(num, x, Do(Finish(h))))
  {
    var x' := After(num, x, Do(Finish(h)));
    FinishAfter(num, x, h, x');
    FinishedShape(num, tr, x.s, h, x'.s);
    AskFewer(num, x, x'.s.desc, h);
  }

  lemma FinishAfter(num: nat, x: System, h: nat, x': System)
    requires Sized(num, x.s) && Can(num, x, Do(Finish(h))) && x' == After(num, x, Do(Finish(h)))
    ensures x'.s == Next(num, x.s, Finish(h)) && |x'.s.desc| == num
    ensures x'.m == x.m && x'.s.live == x.s.live - {h} && x'.asks == x.asks - {h}
  {
  }

  lemma AskFewer(num: nat, x: System, desc': seq<Desc>, h: nat)
    requires Good(num, x) && |desc'| == num && SameFor(num, x.s.desc, desc', x.s.live - {h})
    ensures AllSay(num, desc', x.s.live - {h}, x.asks - {h})
    ensures AllMoved(x.m, x.s.live - {h}, x.asks - {h}) && Apart(x.asks - {h})
  {
    SayFewer(num, x.s.desc, desc', x.s.live, x.asks, h);
  }

  lemma SayFewer(num: nat, desc: seq<Desc>, desc': seq<Desc>, live: map<nat, Req>, asks: map<nat, Ask>, h: nat)
    requires AllSay(num, desc, live, asks) && |desc'| == num
    requires SameFor(num, desc, desc', live - {h})
    ensures AllSay(num, desc', live - {h}, asks - {h})
  {
    forall g | g in asks && g != h ensures Says(num, desc', g, live[g], asks[g]) {
      assert Says(num, desc, g, live[g], asks[g]);
    }
  }

  /** A request goes on: what it says does not change. */
  lemma SayRephased(num: nat, desc: seq<Desc>, live: map<nat, Req>, asks: map<nat, Ask>, h: nat, phase: Phase)
    requires AllSay(num, desc, live, asks) && h in live
    ensures AllSay(num, desc, Rephased(live, h, phase), asks)
  {
    forall g | g in asks ensures Says(num, desc, g, Rephased(live, h, phase)[g], asks[g]) {
      assert Says(num, desc, g, live[g], asks[g]);
    }
  }

  lemma MovedRephased(m: Memory, live: map<nat, Req>, asks: map<nat, Ask>, h: nat, phase: Phase)
    requires AllMoved(m, live, asks) && h in live
    requires (live[h].phase.Queued? && phase.Taken?) || (live[h].phase.Done? && phase.Completed?)
    ensures AllMoved(m, Rephased(live, h, phase), asks)
  {
    forall g | g in asks && g in live ensures Moved(m, Rephased(live, h, phase)[g], asks[g]) {
      assert Moved(m, live[g], asks[g]);
    }
  }

  lemma TakeGood(num: nat, tr: Trace, x: System)
    requires Reached(num, tr, x.s) && Sized(num, x.s) && Good(num, x) && Can(num, x, Do(Take))
    ensures Good(num, After(num, x, Do(Take)))
  {
    QueueShape(num, tr, x.s);
    var h := x.s.queue[0];
    assert h in x.s.queue;
    SayRephased(num, x.s.desc, x.s.live, x.asks, h, Taken);
    MovedRephased(x.m, x.s.live, x.asks, h, Taken);
  }

  lemma SeeGood(num: nat, tr: Trace, x: System)
    requires Reached(num, tr, x.s) && Sized(num, x.s) && Good(num, x) && Can(num, x, Do(See))
    ensures Good(num, After(num, x, Do(See)))
  {
    UsedIsDone(num, tr, x.s);
    var h := x.s.done[0];
    SayRephased(num, x.s.desc, x.s.live, x.asks, h, Completed);
    MovedRephased(x.m, x.s.live, x.asks, h, Completed);
  }

  /** Exactly the transfer asked for happens. */
  lemma ReturnTransfers(num: nat, x: System, h: nat)
    requires Sized(num, x.s) && Good(num, x) && Can(num, x, Do(Return(h)))
    ensures h in x.asks && Transfer(x.s.desc, h, x.m) == Asked(x.m, x.asks[h])
  {
    assert Says(num, x.s.desc, h, x.s.live[h], x.asks[h]) && Moved(x.m, x.s.live[h], x.asks[h]);
  }

  /** The block gets what the buffer held, or the buffer what the block held, and nothing else changes. */
  ghost function Asked(m: Memory, a: Ask): Memory {
    if a.write then m.(disk := m.disk[a.block := a.buf]) else m.(bufs := m.bufs[a.b := a.disk])
  }

  lemma MovedOnReturn(m: Memory, live: map<nat, Req>, asks: map<nat, Ask>, h: nat)
    requires AllMoved(m, live, asks) && Apart(asks) && h in live && h in asks && live[h].phase.Taken?
    ensures AllMoved(Asked(m, asks[h]), Rephased(live, h, Done), asks)
  {
    forall g | g in asks && g in live ensures Moved(Asked(m, asks[h]), Rephased(live, h, Done)[g], asks[g]) {
      assert Moved(m, live[g], asks[g]) && Moved(m, live[h], asks[h]);
    }
  }

  lemma ReturnGood(num: nat, x: System, h: nat)
    requires Sized(num, x.s) && Good(num, x) && Can(num, x, Do(Return(h)))
    ensures Good(num, After(num, x, Do(Return(h))))
  {
    ReturnTransfers(num, x, h);
    SayRephased(num, x.s.desc, x.s.live, x.asks, h, Done);
    MovedOnReturn(x.m, x.s.live, x.asks, h);
  }

  lemma ChangeGood(num: nat, x: System, b: Buf, v: Content)
    requires Sized(num, x.s) && Good(num, x) && Can(num, x, Change(b, v))
    ensures Good(num, After(num, x, Change(b, v)))
  {
    var m' := x.m.(bufs := x.m.bufs[b := v]);
    forall g | g in x.asks ensures Moved(m', x.s.live[g], x.asks[g]) {
      assert Moved(x.m, x.s.live[g], x.asks[g]) && Says(num, x.s.desc, g, x.s.live[g], x.asks[g]);
    }
  }

  lemma StepGood(num: nat, tr: Trace, x: System, st: Step)
    requires Reached(num, tr, x.s) && Sized(num, x.s) && Good(num, x) && Can(num, x, st)
    ensures Good(num, After(num, x, st))
  {
    match st
    case Change(b, v) => ChangeGood(num, x, b, v);
    case Do(e) =>
      match e {
        case Submit(_, _, _, _, _, _) => SubmitGood(num, tr, x, e);
        case Scrub(_) => ScrubGood(num, tr, x, e);
        case Take => TakeGood(num, tr, x);
        case Return(h) => ReturnGood(num, x, h);
        case See => SeeGood(num, tr, x);
        case Finish(h) => FinishGood(num, tr, x, h);
      }
  }

  // ---------------------------------------------------------------------------------------
  // Runs.

  datatype Run = Begin(m: Memory) | More(before: Run, st: Step)

  ghost predicate Ran(num: nat, run: Run, x: System)
    decreases run
  {
    match run
    case Begin(m) => Boot(num, x.s) && x.m == m && x.asks == map[]
    case More(before, st) =>
      exists x1 :: Ran(num, before, x1) && Sized(num, x1.s) && Can(num, x1, st) && x == After(num, x1, st)
  }

  /** The steps of driver and device in a run. */
  ghost function Steps(run: Run): Trace {
    match run
    case Begin(_) => Start
    case More(before, Do(e)) => Then(Steps(before), e)
    case More(before, Change(_, _)) => Steps(before)
  }

  lemma {:induction false} RunGood(num: nat, run: Run, x: System)
    requires Ran(num, run, x)
    ensures Reached(num, Steps(run), x.s) && Good(num, x)
    decreases run
  {
    match run
    case Begin(m) =>
    case More(before, st) =>
      var x1 :| Ran(num, before, x1) && Sized(num, x1.s) && Can(num, x1, st) && x == After(num, x1, st);
      RunGood(num, before, x1);
      StepGood(num, Steps(before), x1, st);
  }

  /**
   In every run, a request that its thread finds completed has moved what it was asked to: its buffer
   and its block are the same, and hold what the buffer held when a write was submitted, and what the
   block held when a read was.
   */
  lemma RequestDone(num: nat, run: Run, x: System, h: nat)
    requires Ran(num, run, x) && h in x.s.live && x.s.live[h].b !in x.s.busy
    ensures h in x.asks && x.asks[h].b == x.s.live[h].b
    ensures var a := x.asks[h];
            At(x.m.bufs, a.b) == At(x.m.disk, a.block) == if a.write then a.buf else a.disk
  {
    RunGood(num, run, x);
    RunInv(num, Steps(run), x.s);
    assert RequestOk(x.s.info[h], x.s.busy, h, x.s.live[h], x.s.queue, x.s.done);
    assert Says(num, x.s.desc, h, x.s.live[h], x.asks[h]) && Moved(x.m, x.s.live[h], x.asks[h]);
  }

  /** In every run, no step but the device's own completion of it, of no other request and of no thread,
      changes the buffer or the block of a request in flight; and that makes the one transfer asked for. */
  lemma OnlyAsked(num: nat, run: Run, x: System, st: Step, g: nat)
    requires Ran(num, run, x) && Sized(num, x.s) && Can(num, x, st) && g in x.asks
    ensures var a, m' := x.asks[g], After(num, x, st).m;
            if st == Do(Return(g)) then m' == Asked(x.m, a)
            else At(m'.bufs, a.b) == At(x.m.bufs, a.b) && At(m'.disk, a.block) == At(x.m.disk, a.block)
  {
    match st
    case Change(b, _) => NotItsBuffer(num, run, x, b, g);
    case Do(Return(h)) => ReturnAsked(num, run, x, h, g, Transfer(x.s.desc, h, x.m));
    case Do(_) =>
  }

  lemma NotItsBuffer(num: nat, run: Run, x: System, b: nat, g: nat)
    requires Ran(num, run, x) && g in x.asks && forall h | h in x.s.live :: x.s.live[h].b != b
    ensures x.asks[g].b != b
  {
    RunGood(num, run, x);
    assert Says(num, x.s.desc, g, x.s.live[g], x.asks[g]);
  }

  lemma ReturnAsked(num: nat, run: Run, x: System, h: nat, g: nat, m': Memory)
    requires Ran(num, run, x) && Sized(num, x.s) && Can(num, x, Do(Return(h))) && g in x.asks
    requires m' == Transfer(x.s.desc, h, x.m)
    ensures h == g ==> m' == Asked(x.m, x.asks[g])
    ensures h != g ==> At(m'.bufs, x.asks[g].b) == At(x.m.bufs, x.asks[g].b)
    ensures h != g ==> At(m'.disk, x.asks[g].block) == At(x.m.disk, x.asks[g].block)
  {
    RunGood(num, run, x);
    ReturnTransfers(num, x, h);
    AskedElsewhere(x.m, x.asks, h, g);
  }

  lemma AskedElsewhere(m: Memory, asks: map<nat, Ask>, h: nat, g: nat)
    requires Apart(asks) && h in asks && g in asks
    ensures h != g ==> At(Asked(m, asks[h]).bufs, asks[g].b) == At(m.bufs, asks[g].b)
    ensures h != g ==> At(Asked(m, asks[h]).disk, asks[g].block) == At(m.disk, asks[g].block)
  {
  }
}
