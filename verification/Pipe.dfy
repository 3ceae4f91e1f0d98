/**
 kernel/pipe.c: a bounded FIFO in a ring indexed by free-running counters that wrap.

 pi->lock is held from acquire to sleep or release, so each stretch of pipewrite and piperead
 between those is one atomic step.  The class is the code of those stretches.
 */
module PipeRing {
  import opened Common
  import opened WrapArith

  /** What a pipe stands for: every byte ever stored, how many of them were consumed, and
      which ends are open. */
  datatype View = View(stored: seq<Byte>, taken: nat, readopen: bool, writeopen: bool) {

    ghost predicate Valid(size: nat) { taken <= |stored| <= taken + size }

    function Contents(): seq<Byte>
      requires taken <= |stored|
    {
      stored[taken..]
    }
  }

  /** Why a stretch of pipewrite ended. */
  datatype WriteEnd = WriteSleeps | WriteReturns | WriteRefused

  /** Why a stretch of piperead ended. */
  datatype ReadEnd = ReadSleeps | ReadReturns | ReadKilled

  function Min(a: int, b: int): int { if a <= b then a else b }

  function Max(a: int, b: int): int { if a >= b then a else b }

  /** How many of the bytes from i on a stretch of pipewrite stores: up to the end, the room
      left, the moment the writer is seen killed, and the first unreadable byte. */
  function WriteCount(v: View, size: nat, len: nat, i: nat, killAt: nat, faultAt: nat): (k: nat)
    requires v.Valid(size) && i <= len
    ensures k <= len - i && k <= size - (|v.stored| - v.taken)
    ensures k > 0 ==> v.readopen && i + k <= killAt && i + k <= faultAt
    ensures || k == len - i || k == size - (|v.stored| - v.taken)
            || !v.readopen || killAt <= i + k || faultAt <= i + k
  {
    if !v.readopen then 0
    else Min(Min(len - i, size - (|v.stored| - v.taken)), Max(0, Min(killAt, faultAt) - i))
  }

  /** Which of those limits stopped it, tested in the code's order. */
  function WriteEndAt(v: View, size: nat, len: nat, i: nat, killAt: nat): WriteEnd
    requires v.Valid(size) && i <= len
  {
    if i == len then WriteReturns
    else if !v.readopen || killAt <= i then WriteRefused
    else if |v.stored| == v.taken + size then WriteSleeps
    else WriteReturns
  }

  /** How many bytes piperead takes: one more than it returns when copyout fails. */
  function ReadCount(v: View, size: nat, len: nat, faultAt: nat): (k: nat)
    requires v.Valid(size)
    ensures k <= len && k <= |v.stored| - v.taken && k <= faultAt + 1
    ensures k == len || k == |v.stored| - v.taken || k == faultAt + 1
  {
    Min(Min(len, |v.stored| - v.taken), faultAt + 1)
  }

  class Pipe {
    const size: nat      // PIPESIZE
    const wraps: nat     // the counters count modulo size * wraps, 2^32 in C
    const data: array<Byte>
    var nread: nat
    var nwrite: nat
    var readopen: bool
    var writeopen: bool

    ghost var stored: seq<Byte>
    ghost var consumed: seq<Byte>

    ghost predicate Valid()
      reads this, data
    {
      && 0 < size && 2 <= wraps && data.Length == size
      && |consumed| <= |stored| <= |consumed| + size
      && nread == |consumed| % (size * wraps) && nwrite == |stored| % (size * wraps)
      && consumed == stored[..|consumed|]
      && (forall k | |consumed| <= k < |stored| :: data[k % size] == stored[k])
    }

    ghost function Sees(): View
      reads this
    {
      View(stored, |consumed|, readopen, writeopen)
    }

    /** pipealloc's initialisation. */
    constructor (size: nat, wraps: nat)
      requires 0 < size && 2 <= wraps
      ensures Valid() && fresh(data) && this.size == size && Sees() == View([], 0, true, true)
    {
      this.size, this.wraps := size, wraps;
      data := new Byte[size];
      nread, nwrite, readopen, writeopen := 0, 0, true, true;
      stored, consumed := [], [];
    }

    lemma Modulus()
      requires 0 < size && 2 <= wraps
      ensures size < size * wraps
    {
      assert size * wraps >= size * 2;
    }

    /** pi->nwrite == pi->nread + PIPESIZE */
    method IsFull() returns (full: bool)
      requires Valid()
      ensures full == (|stored| == |consumed| + size)
    {
      Modulus();
      full := nwrite == (nread + size) % (size * wraps);
      WrapAdd(|consumed|, size, size * wraps);
      WrapEqual(|stored|, |consumed| + size, size * wraps);
    }

    /** pi->nread == pi->nwrite */
    method IsEmpty() returns (empty: bool)
      requires Valid()
      ensures empty == (|stored| == |consumed|)
    {
      Modulus();
      empty := nread == nwrite;
      WrapEqual(|consumed|, |stored|, size * wraps);
    }

    /** pi->data[pi->nwrite++ % PIPESIZE] = ch */
    method Put(ch: Byte)
      requires Valid() && |stored| < |consumed| + size
      modifies this`nwrite, this`stored, data
      ensures Valid() && stored == old(stored) + [ch]
    {
      Modulus();
      WrapIndex(|stored|, size, wraps);
      WrapAdd(|stored|, 1, size * wraps);
      ghost var w := |stored|;
      forall k | |consumed| <= k < w ensures k % size != w % size {
        WrapDistinct(k, w, size);
      }
      data[nwrite % size] := ch;
      nwrite := (nwrite + 1) % (size * wraps);
      stored := stored + [ch];
    }

    /** ch = pi->data[pi->nread++ % PIPESIZE] */
    method Take() returns (ch: Byte)
      requires Valid() && |consumed| < |stored|
      modifies this`nread, this`consumed
      ensures Valid() && ch == stored[|old(consumed)|] && consumed == old(consumed) + [ch]
    {
      Modulus();
      WrapIndex(|consumed|, size, wraps);
      WrapAdd(|consumed|, 1, size * wraps);
      ch := data[nread % size];
      nread := (nread + 1) % (size * wraps);
      consumed := consumed + [ch];
    }

    /** pipewrite from holding the lock at byte i until it sleeps or returns.  The writer is
        seen killed from byte killAt on, and byte faultAt is the first that copyin cannot read. */
    method WriteStretch(src: seq<Byte>, start: nat, killAt: nat, faultAt: nat) returns (i: nat, end: WriteEnd)
      requires Valid() && start <= |src|
      modifies this`nwrite, this`stored, data
      ensures Valid()
      ensures i == start + WriteCount(old(Sees()), size, |src|, start, killAt, faultAt)
      ensures stored == old(stored) + src[start..i]
      ensures end == WriteEndAt(Sees(), size, |src|, i, killAt)
      ensures start <= i <= |src| && (i > start ==> readopen && i <= killAt && i <= faultAt)
      ensures end.WriteReturns? && i < |src| ==>
                faultAt <= i && readopen && i < killAt && |stored| < |consumed| + size
      ensures end.WriteSleeps? ==> i < |src| && readopen && i < killAt && |stored| == |consumed| + size
      ensures end.WriteRefused? ==> i < |src| && (!readopen || killAt <= i)
    {
      ghost var v := Sees();
      i := start;
      while i < |src|
        invariant start <= i <= |src| && Valid()
        invariant stored == old(stored) + src[start..i]
        invariant i > start ==> readopen && i <= killAt && i <= faultAt
      {
        if !readopen || killAt <= i {
          assert i - start == WriteCount(v, size, |src|, start, killAt, faultAt);
          return i, WriteRefused;
        }
        var full := IsFull();
        if full {
          assert i - start == WriteCount(v, size, |src|, start, killAt, faultAt);
          return i, WriteSleeps;
        }
        if faultAt <= i {
          break;
        }
        Put(src[i]);
        i := i + 1;
      }
      assert i - start == WriteCount(v, size, |src|, start, killAt, faultAt);
      end := WriteReturns;
    }

    /** piperead from holding the lock until it sleeps or returns, with the bytes delivered;
        byte faultAt is the first that copyout cannot deliver, and is lost. */
    method ReadStretch(len: nat, killed: bool, faultAt: nat) returns (got: seq<Byte>, end: ReadEnd)
      requires Valid()
      modifies this`nread, this`consumed
      ensures Valid()
      ensures end == if old(|stored| == |consumed|) && writeopen then (if killed then ReadKilled else ReadSleeps)
                     else ReadReturns
      ensures |consumed| == |old(consumed)| + if end.ReadReturns? then ReadCount(old(Sees()), size, len, faultAt) else 0
      ensures |got| == if end.ReadReturns? then Min(ReadCount(old(Sees()), size, len, faultAt), faultAt) else 0
      ensures got == old(Sees().Contents())[..|got|] && |got| <= len && |got| <= faultAt
      ensures end.ReadReturns? && |got| < len ==> |got| == faultAt || |stored| == |consumed|
      ensures end.ReadReturns? && got == [] && 0 < len && 0 < faultAt ==> !writeopen && |stored| == |consumed|
    {
      got := [];
      var empty := IsEmpty();
      if empty && writeopen {
        return got, if killed then ReadKilled else ReadSleeps;
      }
      ghost var c0 := |consumed|;
      while |got| < len
        invariant |got| <= len && |got| <= faultAt && Valid()
        invariant |consumed| == c0 + |got| && got == stored[c0..|consumed|]
        decreases len - |got|
      {
        var none := IsEmpty();
        if none {
          break;
        }
        var ch := Take();
        if |got| == faultAt {
          return got, ReadReturns;
        }
        got := got + [ch];
      }
      end := ReadReturns;
    }

    /** pipeclose: true if both ends are now closed and the pipe is freed. */
    method Close(writable: bool) returns (freed: bool)
      requires Valid()
      modifies this`readopen, this`writeopen
      ensures Valid()
      ensures writeopen == (old(writeopen) && !writable) && readopen == (old(readopen) && writable)
      ensures freed == (!readopen && !writeopen)
    {
      if writable {
        writeopen := false;
      } else {
        readopen := false;
      }
      freed := !readopen && !writeopen;
    }
  }
}

/** Readers and writers of one pipe, interleaved. */
module PipeRuns {
  import opened Common
  import opened PipeRing

  type Tid = nat

  /** pipewrite in progress: what is to be written, and how far it has come. */
  datatype Writer = Writer(src: seq<Byte>, i: nat)

  /** The pipe, the calls in progress, and which of them are asleep. */
  datatype State = State(v: View, consumed: seq<Byte>,
                         writers: map<Tid, Writer>, wsleep: set<Tid>,
                         readers: map<Tid, nat>, rsleep: set<Tid>)

  datatype Event =
    | StartWrite(t: Tid, src: seq<Byte>)
    | WriteStep(t: Tid, killAt: nat, faultAt: nat)
    | StartRead(t: Tid, len: nat)
    | ReadStep(t: Tid, killed: bool, faultAt: nat)
    | CloseEnd(writable: bool)
    | Kill(t: Tid)   // makes a sleeper runnable

  const FRESH := State(View([], 0, true, true), [], map[], {}, map[], {})

  ghost predicate Ok(size: nat, s: State) {
    && s.v.Valid(size)
    && (forall t | t in s.writers :: s.writers[t].i <= |s.writers[t].src|)
  }

  ghost predicate Enabled(s: State, e: Event) {
    match e
    case StartWrite(t, _) => t !in s.writers && t !in s.readers
    case WriteStep(t, _, _) => t in s.writers && t !in s.wsleep
    case StartRead(t, _) => t !in s.writers && t !in s.readers
    case ReadStep(t, _, _) => t in s.readers && t !in s.rsleep
    case CloseEnd(writable) => if writable then s.v.writeopen else s.v.readopen
    case Kill(_) => true
  }

  ghost function Next(size: nat, s: State, e: Event): State
    requires Ok(size, s) && Enabled(s, e)
  {
    match e
    case StartWrite(t, src) => s.(writers := s.writers[t := Writer(src, 0)])
    case WriteStep(t, killAt, faultAt) =>
      var w := s.writers[t];
      var i := w.i + WriteCount(s.v, size, |w.src|, w.i, killAt, faultAt);
      var v' := s.v.(stored := s.v.stored + w.src[w.i..i]);
      (match WriteEndAt(v', size, |w.src|, i, killAt)
       case WriteSleeps => s.(v := v', writers := s.writers[t := Writer(w.src, i)], wsleep := s.wsleep + {t},
         rsleep := {})
       case WriteReturns => s.(v := v', writers := s.writers - {t}, rsleep := {})
       case WriteRefused => s.(v := v', writers := s.writers - {t}))   // no wakeup on this path
    case StartRead(t, len) => s.(readers := s.readers[t := len])
    case ReadStep(t, killed, faultAt) =>
      if |s.v.stored| == s.v.taken && s.v.writeopen then
        if killed then s.(readers := s.readers - {t}) else s.(rsleep := s.rsleep + {t})
      else
        var k := ReadCount(s.v, size, s.readers[t], faultAt);
        s.(v := s.v.(taken := s.v.taken + k), consumed := s.consumed + s.v.Contents()[..k],
           readers := s.readers - {t}, wsleep := {})
    case CloseEnd(writable) =>
      if writable then s.(v := s.v.(writeopen := false), rsleep := {})
      else s.(v := s.v.(readopen := false), wsleep := {})
    case Kill(t) => s.(wsleep := s.wsleep - {t}, rsleep := s.rsleep - {t})
  }

  /** FIFO: what was consumed is a prefix of what was stored, and at most `size` bytes are held.
      A sleeping writer implies a full pipe that is still open for reading. */
  ghost predicate Inv(size: nat, s: State) {
    && Ok(size, s)
    && s.consumed == s.v.stored[..s.v.taken]
    && (s.wsleep != {} ==> |s.v.stored| == s.v.taken + size && s.v.readopen)
  }

  /** A sleeping reader implies an empty pipe that is still open for writing. */
  ghost predicate ReadersInv(s: State) {
    s.rsleep != {} ==> |s.v.stored| == s.v.taken && s.v.writeopen
  }

  lemma StepKeeps(size: nat, s: State, e: Event)
    requires Inv(size, s) && Enabled(s, e)
    ensures Inv(size, Next(size, s, e))
    ensures s.v.stored <= Next(size, s, e).v.stored && s.consumed <= Next(size, s, e).consumed
  {
    match e
    case WriteStep(t, killAt, faultAt) =>
      var w := s.writers[t];
      var i := w.i + WriteCount(s.v, size, |w.src|, w.i, killAt, faultAt);
      assert (s.v.stored + w.src[w.i..i])[..s.v.taken] == s.v.stored[..s.v.taken];
    case ReadStep(t, killed, faultAt) =>
      var k := ReadCount(s.v, size, s.readers[t], faultAt);
      assert s.v.stored[..s.v.taken] + s.v.Contents()[..k] == s.v.stored[..s.v.taken + k];
    case _ =>
  }

  /** A read that is not left asleep takes what it asked for, or all there is, or up to the byte that cannot be
      delivered; so it takes nothing, as at the end of the file, only from an empty pipe with no writer. */
  lemma ReadProgress(size: nat, s: State, t: Tid, killed: bool, faultAt: nat)
    requires Inv(size, s) && Enabled(s, ReadStep(t, killed, faultAt))
    ensures var s', len := Next(size, s, ReadStep(t, killed, faultAt)), s.readers[t];
            var n, empty := |s'.consumed| - |s.consumed|, |s.v.stored| == s.v.taken;
            if empty && s.v.writeopen then
              && s'.v == s.v && s'.consumed == s.consumed
              && (t in s'.readers <==> !killed) && (t in s'.rsleep <==> !killed)
            else
              && t !in s'.readers && s'.wsleep == {} && s'.v.taken == s.v.taken + n && s'.v.stored == s.v.stored
              && 0 <= n <= len && n <= faultAt + 1 && (n == len || n == faultAt + 1 || s'.v.taken == |s'.v.stored|)
              && s'.consumed == s.v.stored[..s.v.taken + n] && (n == 0 && 0 < len ==> empty && !s.v.writeopen)
  {
    StepKeeps(size, s, ReadStep(t, killed, faultAt));
  }

  /** A write goes on from where it was, in order; it is over with all its bytes stored, or at one that cannot be
      read, or refused; and is left asleep only beside a full pipe. */
  lemma WriteProgress(size: nat, s: State, t: Tid, killAt: nat, faultAt: nat) returns (i: nat)
    requires Inv(size, s) && Enabled(s, WriteStep(t, killAt, faultAt))
    ensures var s', w := Next(size, s, WriteStep(t, killAt, faultAt)), s.writers[t];
            && w.i <= i <= |w.src| && s'.v == s.v.(stored := s.v.stored + w.src[w.i..i])
            && (i > w.i ==> s.v.readopen && i <= killAt && i <= faultAt)
            && (t in s'.writers ==>
                  && s'.writers[t] == Writer(w.src, i) && t in s'.wsleep && s'.rsleep == {}
                  && i < |w.src| && |s'.v.stored| == s'.v.taken + size)
            && (t !in s'.writers ==>
                  || ((i == |w.src| || faultAt <= i) && s'.rsleep == {})
                  || (i < |w.src| && (!s.v.readopen || killAt <= i)))
  {
    i := s.writers[t].i + WriteCount(s.v, size, |s.writers[t].src|, s.writers[t].i, killAt, faultAt);
  }

  /** A writer seen killed after storing bytes in this stretch returns without a wakeup. */
  ghost predicate KilledMidWrite(size: nat, s: State, e: Event)
    requires Ok(size, s) && Enabled(s, e)
  {
    e.WriteStep? &&
    var w := s.writers[e.t];
    && WriteCount(s.v, size, |w.src|, w.i, e.killAt, e.faultAt) > 0
    && e.killAt == w.i + WriteCount(s.v, size, |w.src|, w.i, e.killAt, e.faultAt) < |w.src|
  }

  /** The readers' half holds after a step exactly when no writer is killed in mid-write beside
      a sleeping reader. */
  lemma ReadersStep(size: nat, s: State, e: Event)
    requires 0 < size && Inv(size, s) && Enabled(s, e) && ReadersInv(s)
    ensures ReadersInv(Next(size, s, e)) <==> !(KilledMidWrite(size, s, e) && s.rsleep != {})
  {
  }

  datatype Trace = Start | Then(before: Trace, e: Event)

  /** A run of the pipe; `calm` when no writer is killed in mid-write beside a sleeping reader. */
  ghost predicate Reached(size: nat, tr: Trace, s: State, calm: bool)
    decreases tr
  {
    match tr
    case Start => s == FRESH
    case Then(before, e) =>
      exists s1 ::
        && Reached(size, before, s1, calm) && Ok(size, s1) && Enabled(s1, e) && s == Next(size, s1, e)
        && (calm ==> !(KilledMidWrite(size, s1, e) && s1.rsleep != {}))
  }

  lemma {:induction false} PipeFifo(size: nat, tr: Trace, s: State, calm: bool)
    requires 0 < size && Reached(size, tr, s, calm)
    ensures Inv(size, s) && (calm ==> ReadersInv(s))
  {
    if tr.Then? {
      var s1 :| && Reached(size, tr.before, s1, calm) && Ok(size, s1) && Enabled(s1, tr.e) && s == Next(size, s1, tr.e)
                && (calm ==> !(KilledMidWrite(size, s1, tr.e) && s1.rsleep != {}));
      PipeFifo(size, tr.before, s1, calm);
      StepKeeps(size, s1, tr.e);
      if calm { ReadersStep(size, s1, tr.e); }
    }
  }

  /** Without that proviso the readers' half fails: a reader sleeps, a writer stores one of two
      bytes and is then seen killed, and the reader sleeps on beside a byte it could read. */
  lemma ReaderWakeupLost(x: Byte, size: nat) returns (tr: Trace, s: State)
    requires 1 < size
    ensures Reached(size, tr, s, false) && !ReadersInv(s)
  {
    var s1 := Next(size, FRESH, StartRead(0, 1));
    var s2 := Next(size, s1, ReadStep(0, false, 1));
    var s3 := Next(size, s2, StartWrite(1, [x, x]));
    s := Next(size, s3, WriteStep(1, 1, 2));
    var t0 := Start;
    assert Reached(size, t0, FRESH, false);
    var t1 := Then(t0, StartRead(0, 1));
    assert Reached(size, t1, s1, false);
    var t2 := Then(t1, ReadStep(0, false, 1));
    assert Reached(size, t2, s2, false);
    var t3 := Then(t2, StartWrite(1, [x, x]));
    assert Reached(size, t3, s3, false);
    tr := Then(t3, WriteStep(1, 1, 2));
    assert Reached(size, tr, s, false);
    assert 0 in s.rsleep;
  }
}
