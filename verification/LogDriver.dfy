/**
 kernel/log.c as code: the fields of `struct log`, the loops of write_log, install_trans,
 read_head, write_head and log_write, and commit and recover_from_log built from them.

 Each method carries its steps in the ghost `trace`: the state after every single disk write
 is a state of that run, so the theorems about runs (a crash at any of those points included)
 apply to every moment of the executions of this code.
 */
module LogDriver {
  import opened Common
  import opened WriteAheadLog
  import opened LogRefinement
  import R = LogReservation

  datatype LogWriteResult = Logged | TooBigTransaction | OutsideTransaction

  class Log {
    const lay: Layout
    var disk: Disk
    var cache: map<nat, Buf>
    var lh: seq<nat>
    var outstanding: nat
    var committing: bool

    ghost var active: map<Tid, nat>
    ghost var phase: Phase
    ghost const origin: State
    ghost var trace: Trace
    ghost var spec: Spec

    ghost function St(): State
      reads this
    {
      State(disk, cache, R.Core(lh, active, committing), phase)
    }

    ghost predicate Valid()
      reads this
    {
      Reached(lay, origin, trace, St(), spec) && outstanding == |active|
    }

    /** No thread holds a logged block; those that read other blocks may hold them. */
    ghost predicate Quiet()
      reads this
    {
      forall b | b in cache && b in lh :: cache[b].holder.None?
    }

    /** Power on with a formatted disk. */
    constructor (lay: Layout, disk: Disk)
      requires DiskOk(lay, disk)
      ensures Valid() && Quiet() && phase == Booting && this.disk == disk && this.lay == lay
      ensures spec.durable == Durable(lay, disk)
    {
      this.lay := lay;
      this.disk := disk;
      cache := map[];
      lh := [];
      outstanding := 0;
      committing := false;
      active := map[];
      phase := Booting;
      origin := State(disk, map[], R.BOOT, Booting);
      trace := Start;
      spec := Abs(lay, State(disk, map[], R.BOOT, Booting));
    }

    /** What the recorded run means: every method below states its effect on `spec`, and this
        is what that says of the disk and the cache. */
    lemma SpecIsAbs()
      requires Valid()
      ensures Inv(lay, St()) && Abs(lay, St()) == spec
    {
      ReachedRun(lay, origin, trace, St(), spec);
    }

    /** Records that the fields have just been changed by step e. */
    ghost method Record(before: State, e: Event)
      requires Reached(lay, origin, trace, before, spec)
      requires Enabled(lay, before, e) && St() == Next(lay, before, e)
      requires outstanding == |active|
      modifies this`trace, this`spec
      ensures Valid() && trace == Then(old(trace), e) && spec == SpecNext(old(spec), e)
    {
      trace := Then(trace, e);
      spec := SpecNext(spec, e);
    }

    /** The data bread returns. */
    function Bread(b: nat): (data: Block)
      reads this
      ensures data == View(St(), b)
    {
      if b in cache && cache[b].valid then cache[b].data else BlockAt(disk, b)
    }

    /** The entries loop of write_head. */
    static method FillHeader(hb: Block, lh: seq<nat>) returns (r: Block)
      requires |lh| < |hb|
      ensures r == EncodeHeader(hb, lh)
    {
      r := hb[0 := |lh|];
      var i := 0;
      while i < |lh|
        invariant 0 <= i <= |lh| && |r| == |hb|
        invariant r == [|lh|] + lh[..i] + hb[1 + i..]
      {
        r := r[1 + i := lh[i]];
        i := i + 1;
      }
      assert lh[..i] == lh;
    }

    /** read_head: the block-number loop. */
    static method ReadEntries(hb: Block) returns (lh: seq<nat>)
      requires 0 < |hb| && 1 + hb[0] <= |hb|
      ensures lh == DecodeHeader(hb)
    {
      lh := [];
      var i := 0;
      while i < hb[0]
        invariant 0 <= i <= hb[0] && lh == hb[1..1 + i]
      {
        lh := lh + [hb[1 + i]];
        i := i + 1;
      }
    }

    /** One iteration of write_log. */
    method CopyOne(tail: nat)
      requires Valid() && Quiet() && phase == Copying(tail) && tail < |lh|
      modifies this
      ensures Valid() && Quiet() && phase == Copying(tail + 1)
      ensures lh == old(lh) && spec == old(spec) && trace == Then(old(trace), CopyBlock)
    {
      ghost var s := St();
      Shape(lay, origin, trace, s, spec);
      var to := lay.LogBlock(tail);
      var data := Bread(lh[tail]);
      cache := cache[to := Buf(data, true, 0, {}, None, false)];
      disk := disk[to := data];
      phase := Copying(tail + 1);
      Record(s, CopyBlock);
    }

    /** write_log. */
    method WriteLog()
      requires Valid() && Quiet() && phase == Copying(0)
      modifies this
      ensures Valid() && Quiet() && phase == Copying(|lh|)
      ensures lh == old(lh) && spec == old(spec) && Prefix(old(trace), trace)
    {
      var tail := 0;
      while tail < |lh|
        invariant 0 <= tail <= |lh|
        invariant Valid() && Quiet() && phase == Copying(tail)
        invariant lh == old(lh) && spec == old(spec) && Prefix(old(trace), trace)
      {
        CopyOne(tail);
        tail := tail + 1;
      }
    }

    /** write_head: the entries go to the header's buffer and from there to the disk. */
    method PutHead()
      requires lay.start < |disk| && |lh| < |Bread(lay.start)|
      modifies this`cache, this`disk
      ensures var hb := EncodeHeader(old(Bread(lay.start)), lh);
              disk == old(disk)[lay.start := hb] &&
              cache == old(cache)[lay.start := Buf(hb, true, 0, {}, None, false)]
    {
      var hb := FillHeader(Bread(lay.start), lh);
      cache := cache[lay.start := Buf(hb, true, 0, {}, None, false)];
      disk := disk[lay.start := hb];
    }

    /** write_head at the commit point. */
    method WriteHeadCommit()
      requires Valid() && Quiet() && phase == Copying(|lh|) && |lh| > 0
      modifies this
      ensures Valid() && Quiet() && phase == Installing(0)
      ensures lh == old(lh) && trace == Then(old(trace), WriteHead)
      ensures spec == old(spec).(durable := old(spec.current))
    {
      ghost var s := St();
      HeaderShape(lay, origin, trace, s, spec);
      PutHead();
      phase := Installing(0);
      Record(s, WriteHead);
    }

    /** One iteration of install_trans at boot. */
    method ReplayOne(tail: nat)
      requires Valid() && Quiet() && phase == Replaying(tail) && tail < |lh|
      modifies this
      ensures Valid() && Quiet() && phase == Replaying(tail + 1)
      ensures lh == old(lh) && spec == old(spec) && trace == Then(old(trace), ReplayBlock)
    {
      ghost var s := St();
      Shape(lay, origin, trace, s, spec);
      var b := lh[tail];
      var data := Bread(lay.LogBlock(tail));
      cache := cache[b := Buf(data, true, 0, {}, None, false)];
      disk := disk[b := data];
      phase := Replaying(tail + 1);
      Record(s, ReplayBlock);
    }

    /** One iteration of install_trans in commit: also unpins the buffer. */
    method InstallOne(tail: nat)
      requires Valid() && Quiet() && phase == Installing(tail) && tail < |lh|
      modifies this
      ensures Valid() && Quiet() && phase == Installing(tail + 1)
      ensures lh == old(lh) && spec == old(spec) && trace == Then(old(trace), InstallBlock)
    {
      ghost var s := St();
      InstallShape(lay, origin, trace, s, spec);
      var b := lh[tail];
      var data := Bread(lay.LogBlock(tail));
      cache := cache[b := cache[b].(data := data, refcnt := cache[b].refcnt - 1)];
      disk := disk[b := data];
      phase := Installing(tail + 1);
      Record(s, InstallBlock);
    }

    /** install_trans. */
    method InstallTrans(recovering: bool)
      requires Valid() && Quiet() && phase == if recovering then Replaying(0) else Installing(0)
      modifies this
      ensures Valid() && Quiet() && phase == if recovering then Replaying(|lh|) else Installing(|lh|)
      ensures lh == old(lh) && spec == old(spec) && Prefix(old(trace), trace)
    {
      var tail := 0;
      while tail < |lh|
        invariant 0 <= tail <= |lh|
        invariant Valid() && Quiet() && phase == if recovering then Replaying(tail) else Installing(tail)
        invariant lh == old(lh) && spec == old(spec) && Prefix(old(trace), trace)
      {
        if recovering {
          ReplayOne(tail);
        } else {
          InstallOne(tail);
        }
        tail := tail + 1;
      }
    }

    /** lh.n = 0 and the write_head that erases the transaction. */
    method EraseHead(recovering: bool)
      requires Valid() && Quiet() && phase == if recovering then Replaying(|lh|) else Installing(|lh|)
      modifies this
      ensures Valid() && Quiet() && lh == [] && phase == if recovering then Normal else Cleared
      ensures spec == old(spec) && trace == Then(old(trace), if recovering then ClearReplayed else ClearHead)
      ensures recovering ==> active == map[]
    {
      ghost var s := St();
      HeaderShape(lay, origin, trace, s, spec);
      lh := [];
      PutHead();
      if recovering {
        assert active == map[] && !committing by { NoOperations(lay, origin, trace, s, spec); }
      }
      phase := if recovering then Normal else Cleared;
      Record(s, if recovering then ClearReplayed else ClearHead);
    }

    /** commit(): the contents current on entry are durable on return. */
    method Commit()
      requires Valid() && Quiet() && phase == Copying(0)
      modifies this
      ensures Valid() && Quiet() && phase == Cleared && lh == []
      ensures spec == old(spec).(durable := old(spec.current)) && Prefix(old(trace), trace)
    {
      if |lh| > 0 {
        WriteLog();
        WriteHeadCommit();
        ghost var tr := trace;
        InstallTrans(false);
        ghost var tr' := trace;
        EraseHead(false);
        PrefixTrans(tr, tr', trace);
        PrefixTrans(old(trace), tr, trace);
      } else {
        ghost var s := St();
        NoOperations(lay, origin, trace, s, spec);
        NothingLogged(lay, origin, trace, s, spec);
        phase := Cleared;
        Record(s, NothingToCommit);
      }
    }

    /** recover_from_log(), run at boot before anything else touches the disk. */
    method RecoverFromLog()
      requires Valid() && Quiet() && phase == Booting
      modifies this
      ensures Valid() && Quiet() && phase == Normal && lh == []
      ensures spec == old(spec) && Prefix(old(trace), trace)
      ensures |disk| == lay.nblocks
      ensures old(spec.durable) == map b | 0 <= b < lay.nblocks && !lay.InLog(b) :: disk[b]
    {
      ghost var s := St();
      BootShape(lay, origin, trace, s, spec);
      lh := ReadEntries(Bread(lay.start));
      phase := Replaying(0);
      Record(s, ReadHead);
      ghost var tr := trace;
      InstallTrans(true);
      ghost var tr' := trace;
      EraseHead(true);
      PrefixTrans(tr, tr', trace);
      PrefixTrans(old(trace), tr, trace);
      NothingLogged(lay, origin, trace, St(), spec);
    }

    /** One turn of begin_op's loop: false means the caller sleeps and tries again. */
    method TryBeginOp(ghost t: Tid) returns (admitted: bool)
      requires Valid() && (phase.Normal? || committing) && t !in active
      modifies this
      ensures Valid()
      ensures admitted == old(R.CanBegin(lay.p, St().core))
      ensures St() == if admitted then old(St()).(core := R.Begin(old(St()).core, t)) else old(St())
    {
      admitted := false;
      R.SlotsIsProduct(outstanding + 1, lay.p.maxOp);
      if !committing && |lh| + (outstanding + 1) * lay.p.maxOp <= lay.p.logSize {
        ghost var s := St();
        outstanding := outstanding + 1;
        active := active[t := 0];
        admitted := true;
        Record(s, BeginOp(t));
      }
    }

    /** The search of log_write for an entry to absorb the write into. */
    method InLog(b: nat) returns (found: bool)
      ensures found == (b in lh)
    {
      var i := 0;
      while i < |lh| && lh[i] != b
        invariant 0 <= i <= |lh| && b !in lh[..i]
      {
        i := i + 1;
      }
      assert lh[..|lh|] == lh;
      return i < |lh|;
    }

    /** log_write: absorption scan, append, pin. */
    method LogWriteBuf(ghost t: Tid, b: nat) returns (r: LogWriteResult)
      requires Valid() && lay.Home(b) && Holds(St(), t, b)
      requires outstanding > 0 ==> phase == Normal && t in active
      modifies this
      ensures Valid()
      ensures r == if old(R.TooBig(lay.p, St().core)) then TooBigTransaction
                   else if old(outstanding) < 1 then OutsideTransaction else Logged
      ensures r != Logged ==> St() == old(St()) && trace == old(trace)
      ensures r == Logged ==> trace == Then(old(trace), LogWrite(t, b)) && spec == old(spec)
      ensures r == Logged ==> St().core == R.Append(old(St()).core, t, b)
    {
      if |lh| >= lay.p.logSize || |lh| >= lay.p.onDisk - 1 {
        return TooBigTransaction;
      }
      if outstanding < 1 {
        return OutsideTransaction;
      }
      var absorbed := InLog(b);
      ghost var s := St();
      cache := cache[b := cache[b].(dirty := false, refcnt := cache[b].refcnt + if absorbed then 0 else 1)];
      if !absorbed {
        lh := lh + [b];
        active := active[t := active[t] + 1];
      }
      Record(s, LogWrite(t, b));
      return Logged;
    }

    /** end_op up to the commit: true if this was the last operation. */
    method LeaveOp(ghost t: Tid) returns (doCommit: bool)
      requires Valid() && phase == Normal && t in active
      requires forall b | b in cache :: t !in cache[b].users
      modifies this
      ensures Valid() && cache == old(cache) && disk == old(disk) && lh == old(lh)
      ensures doCommit == (old(outstanding) == 1)
      ensures phase == if doCommit then Copying(0) else Normal
      ensures trace == Then(old(trace), EndOp(t)) && spec == old(spec).(ops := old(spec.ops) - {t})
    {
      ghost var s := St();
      NotCommitting(lay, origin, trace, s, spec);
      outstanding := outstanding - 1;
      active := active - {t};
      assert active.Keys == old(active).Keys - {t};
      doCommit := outstanding == 0;
      if doCommit { committing := true; }
      phase := if doCommit then Copying(0) else Normal;
      Record(s, EndOp(t));
    }

    /** committing = 0: operations are admitted again. */
    method Admit()
      requires Valid() && Quiet() && phase == Cleared && lh == []
      modifies this
      ensures Valid() && Quiet() && phase == Normal && lh == []
      ensures spec == old(spec) && trace == Then(old(trace), CommitDone)
    {
      ghost var s := St();
      committing := false;
      phase := Normal;
      Record(s, CommitDone);
    }

    /** end_op, with the commit it runs when it was the last operation. */
    method EndOpAndCommit(ghost t: Tid)
      requires Valid() && phase == Normal && t in active && (outstanding == 1 ==> Quiet())
      requires forall b | b in cache :: t !in cache[b].users
      modifies this
      ensures Valid() && phase == Normal && Prefix(old(trace), trace)
      ensures spec.ops == old(spec.ops) - {t} && spec.current == old(spec.current)
      ensures if old(outstanding) == 1 then lh == [] && spec.durable == spec.current
              else lh == old(lh) && spec.durable == old(spec.durable)
    {
      var doCommit := LeaveOp(t);
      if doCommit {
        ghost var tr := trace;
        Commit();
        PrefixTrans(old(trace), tr, trace);
        tr := trace;
        Admit();
        PrefixTrans(old(trace), tr, trace);
      }
    }
  }
}
