/** The inductive invariant of the protocol. */
module Invariant {
  import opened Wrappers
  import opened Lists
  import opened Protocol
  import opened Laws
  import opened Runs

  // ---- The conservation laws hold -----------------------------------------

  ghost predicate Balances(s: Sys) {
    forall k :: IsLaw(k) ==> Part(k, s.c) + Total(k, s.ts) == 0
  }

  /** The control thread. */
  function Handler(s: Sys): Pc {
    if s.ts == [] then Done else s.ts[0]
  }

  // ---- Thread 0 and the binding -------------------------------------------

  /** The thread runs a handler that NDIS serialises. */
  predicate IsControl(pc: Pc) {
    pc.Control? || (pc.Purge? && pc.pk.FromShutdown?) || (pc.Flush? && !pc.fk.AtCleanup?)
  }

  predicate Shape(b: Binding, bind: BindState, listed: bool, bound: bool, adapter: bool, handle: bool) {
    b.bind == bind && b.listed == listed && b.bound == bound && b.adapter == adapter && b.handle == handle
  }

  predicate Released(b: Binding) {
    !b.name && !b.sendPool && !b.recvPool
  }

  predicate BindShape(b: Binding, bp: BindPc) {
    match bp
    case BindRef => Shape(b, BindIdle, false, false, false, false) && b.state == Initializing
    case BindList => Shape(b, BindIdle, false, true, false, false) && b.state == Initializing
    case BindHold => Shape(b, BindIdle, true, true, false, false) && b.state == Initializing
    case BindStart => Shape(b, BindIdle, true, true, false, false) && b.state == Initializing
    case BindPaused => Shape(b, BindOpening, true, true, true, true)
    case BindActivate => Shape(b, BindOpening, true, true, true, true) && b.state == Paused && !b.raced
    case BindRelease => Shape(b, BindActive, true, true, true, true) && b.state == Paused && !b.raced
    case BindFail => Shape(b, BindOpening, true, true, false, false) && b.state == Initializing
  }

  predicate ReleaseShape(b: Binding, sp: ReleasePc, failed: bool) {
    var bind := if failed then BindFailed else BindIdle;
    match sp
    case ShutHandle => Shape(b, BindClosing, true, true, false, true) && !failed
    case ShutIdle => Shape(b, BindClosing, true, true, false, false) && !failed
    case ShutUnlist => Shape(b, bind, true, true, false, false)
    case ShutFree => Shape(b, bind, false, true, false, false)
    case ShutRelease => Shape(b, bind, false, true, false, false) && Released(b)
    case BindFailRelease => Shape(b, BindFailed, false, false, false, false) && Released(b) && failed
  }

  /** What each program counter of the control thread knows about the binding. */
  predicate ControlShape(b: Binding, pc: Pc) {
    match pc
    case Control(New) => Shape(b, BindIdle, false, false, false, false) && b.state == Initializing
    case Control(Bound) => Shape(b, BindActive, true, true, true, true)
    case Control(Gone) =>
      !b.listed && !b.bound && !b.adapter && !b.handle && (b.bind == BindIdle || b.bind == BindFailed) && Released(b)
    case Control(Bind(bp)) => BindShape(b, bp)
    case Control(Resource(_)) => Shape(b, BindOpening, true, true, false, false) && b.state == Initializing
    case Control(Unbind(ShutLock(failed))) =>
      if failed then Shape(b, BindFailed, true, true, false, false)
      else Shape(b, BindActive, true, true, true, true) && b.state == Closing
    case Control(Unbind(_)) => Shape(b, BindActive, true, true, true, true)
    case Control(Drain(_)) => Shape(b, BindClosing, true, true, true, true)
    case Control(Release(sp, failed)) => ReleaseShape(b, sp, failed)
    case Control(Event(_)) => Shape(b, BindActive, true, true, true, true)
    case Purge(_, _) => Shape(b, BindClosing, true, true, true, true)
    case Flush(k, _) =>
      if k.AtShutdown? then Shape(b, BindClosing, true, true, true, true)
      else Shape(b, BindActive, true, true, true, true)
    case _ => true
  }

  // ---- Draining -------------------------------------------------------------

  /** Shutdown has seen that no send and no request is counted. */
  predicate SendsDrained(pc: Pc) {
    match pc
    case Control(Drain(dp)) => dp.ShutReads? || dp.ShutClose?
    case Control(Release(_, _)) => true
    case Control(Gone) => true
    case Purge(_, _) => true
    case Flush(k, _) => k.AtShutdown?
    case _ => false
  }

  predicate ReadsDrained(pc: Pc) {
    match pc
    case Control(Drain(dp)) => dp.ShutClose?
    case Control(Release(_, _)) => true
    case Control(Gone) => true
    case Flush(k, _) => k.AtShutdown?
    case _ => false
  }

  predicate QueueDrained(pc: Pc) {
    match pc
    case Control(Drain(dp)) => dp.ShutClose?
    case Control(Release(_, _)) => true
    case Control(Gone) => true
    case Control(Event(ep)) => ep.PauseDone?
    case Flush(k, fl) => fl.FlushExit?
    case _ => false
  }

  predicate LockedByRead(c: Ctx) {
    c.lock.Some? && c.lock.value.ByRead?
  }

  predicate Drained(c: Ctx, pc: Pc) {
    && (SendsDrained(pc) ==> c.tx.count == 0)
    && (ReadsDrained(pc) ==> c.rd.count == 0)
    && (QueueDrained(pc) ==> c.rx.queue == [])
    && (c.b.bind == BindIdle || c.b.bind == BindOpening || c.b.bind == BindFailed
        ==> c.tx.count == 0 && c.rd.count == 0 && c.rx.queue == [])
    && (LockedByRead(c) ==> c.b.bind == BindActive)
  }

  /** ClosingEvent is set exactly while the binding is closing and something is counted. */
  predicate EventExact(c: Ctx, pc: Pc) {
    && (c.tx.closingEvent <==> c.b.bind == BindClosing && c.tx.count > 0)
    && (c.tx.closingEvent ==> !c.tx.signalled)
    && (pc == Control(Drain(ShutWait)) ==> c.tx.closingEvent || c.tx.signalled)
  }

  // ---- Pause and power ------------------------------------------------------

  function WritesOutstanding(s: Sys): nat {
    |s.c.tx.inNdis| + Total(Weight(WritesOut), s.ts)
  }

  /** Pause has seen that no write is outstanding. */
  predicate PauseWaited(pc: Pc) {
    (pc.Flush? && pc.fk.AtPause?) || pc == Control(Event(PauseDone))
  }

  /** The packets that are queued or about to be queued by a thread between its two loads of State. */
  function Slipping(c: Ctx): nat {
    Ind(Between(c)) + |c.rx.queue|
  }

  /** What pause and power-down promise about the queue. */
  predicate QuietQueue(c: Ctx, pc: Pc) {
    && (PauseWaited(pc) ==> c.b.state == Pausing)
    && (pc == Control(Event(PauseWait)) ==> c.b.state == Pausing)
    && (c.b.state == Paused ==> c.b.bind == BindActive || c.b.bind == BindOpening)
    && (c.b.state == Paused && c.b.bind == BindActive ==> Slipping(c) <= Ind(c.b.raced))
    && (!c.b.d0 ==> c.rx.queue == [] || (pc.Flush? && pc.fk.AtPowerDown? && !pc.fl.FlushExit?))
    && (pc.Flush? && pc.fk.AtPowerDown? ==> !c.b.d0)
  }

  /** What pause promises about writes. */
  predicate QuietWrites(s: Sys)
    requires s.ts != []
  {
    PauseWaited(s.ts[0]) || s.c.b.state == Paused ==> WritesOutstanding(s) == 0
  }

  // ---- The rest ---------------------------------------------------------------

  predicate Fifo(q: Packets) {
    && q.entered == q.left + q.queue
    && q.count == |q.queue| <= MAX_RECV_QUEUE_SIZE
  }

  /** The bind has not taken the first reference yet. */
  predicate Unborn(pc: Pc) {
    pc == Control(New) || pc == Control(Bind(BindRef))
  }

  predicate FreedOnce(c: Ctx, pc: Pc) {
    && (c.refCount == 0 <==> c.frees == 1 || Unborn(pc))
    && c.frees <= 1
    && (Unborn(pc) ==> c.frees == 0)
  }

  /** At most one file object that has not been cleaned up is tied to the context. */
  predicate Exclusive(fs: Files) {
    && (fs.openActive <==> fs.pFileObject.Some?)
    && (fs.pFileObject.Some? ==> fs.pFileObject.value in fs.here && fs.pFileObject.value !in fs.cleaned)
    && (forall f :: f in fs.here && f !in fs.cleaned ==> fs.pFileObject == Some(f))
    && fs.here !! fs.elsewhere
    && fs.cleaned <= fs.begun
  }

  /** A file object is tied to the context during its cleanup and during the part of its open that has set
      FsContext, and cleanup and open exclude each other. */
  predicate FileMeasures(f: File, fs: Files, ts: seq<Pc>) {
    && (Total(Weight(CleanupOf(f)), ts) > 0 ==> f in fs.here && f in fs.begun)
    && (Total(Weight(OpenedBy(f)), ts) > 0 ==> f in fs.here && f !in fs.begun && Total(Weight(OpenedBy(f)), ts) == 1)
    && (Total(Weight(OpeningOf(f)), ts) > 0 ==> f !in fs.begun)
  }

  ghost predicate FilesUsed(fs: Files, ts: seq<Pc>) {
    forall f :: FileMeasures(f, fs, ts)
  }

  /** A packet and a claimable read wait together only while some thread will look again. */
  predicate Working(c: Ctx, ts: seq<Pc>) {
    c.rx.queue != [] && HasClaimable(c.rd) ==> Total(Weight(Committed), ts) > 0
  }

  /** What a thread remembers of its IRP: the read it has listed named the context, the write it cancels was sent. */
  predicate Knows(c: Ctx, pc: Pc) {
    match pc
    case Service(FromRead(x, _), _) => x in c.rd.stored
    case CancelWrite(w, cw) => cw.TakeWriteRoutine? || w in c.tx.went
    case _ => true
  }

  predicate ThreadsKnow(s: Sys) {
    forall t :: 0 <= t < |s.ts| ==> Knows(s.c, s.ts[t])
  }

  predicate ThreadsWellFormed(ts: seq<Pc>) {
    && ts != [] && IsControl(ts[0])
    && (forall t :: 0 <= t < |ts| ==> WellFormed(ts[t]))
    && (forall t :: 0 < t < |ts| ==> !IsControl(ts[t]))
  }

  ghost predicate Inv(s: Sys) {
    && ThreadsWellFormed(s.ts)
    && Balances(s)
    && ControlShape(s.c.b, s.ts[0])
    && Drained(s.c, s.ts[0])
    && EventExact(s.c, s.ts[0])
    && QuietQueue(s.c, s.ts[0])
    && QuietWrites(s)
    && Fifo(s.c.rx)
    && s.c.tx.routine <= s.c.tx.stored
    && FreedOnce(s.c, s.ts[0])
    && Exclusive(s.c.fs)
    && FilesUsed(s.c.fs, s.ts)
    && Working(s.c, s.ts)
    && (!s.c.b.adapter ==> Total(Weight(Indicating), s.ts) == 0)
    && (Unborn(s.ts[0]) ==> Total(Weight(Dispatched), s.ts) == 0)
    && ThreadsKnow(s)
  }

  // ---- Consequences of the laws for one thread -------------------------------

  lemma InvInitially()
    ensures Inv(Initially())
  {
    var s := Initially();
    forall k | IsLaw(k) ensures Part(k, s.c) + Total(k, s.ts) == 0 {
      InitialWeight(k);
    }
    forall m: Measure ensures Total(Weight(m), s.ts) == 0 {
      InitialWeight(Weight(m));
    }
  }

  lemma InitialWeight(k: Key)
    ensures Total(k, [Control(New)]) == 0 && Part(k, InitialContext()) == 0
  {
    var pc := Control(New);
    assert Total(k, [pc]) == W(k, pc) + Total(k, [pc][1..]);
    match k
    case OfReads(rk) => NoReadsWeight(pc, rk);
    case OfSends(sk) => NoSendsWeight(pc, sk);
    case _ =>
  }

  /** The words and list entries that the next action of a thread relies on are there. */
  lemma Ready(s: Sys, t: nat, o: bool)
    requires Inv(s) && Guard(s, Run(t, o))
    ensures Prepared(s.c, s.ts[t])
  {
    hide ControlShape, Drained, EventExact, QuietQueue, QuietWrites, Fifo, FreedOnce, Exclusive, FilesUsed, Working;
    hide ThreadsKnow, Balances, ReadPrepared, ReceivePrepared, WritePrepared, SentPrepared, ControlPrepared;
    var pc := s.ts[t];
    match pc
    case Read(x, f, r) => ReadReady(s, t);
    case CancelRead(x, cr) => if cr.Unlink? { CancelReady(s, t); }
    case Write(w, f, wp) => WriteReady(s, t);
    case Sent(ch, sp) => SentReady(s, t);
    case Receive(n, q) => ReceiveReady(s, t);
    case OpenDevice(f, op) => OpenReady(s, t);
    case CleanupMark(f) => MarkReady(s, t);
    case Control(ctl) => ControlReady(s.c.b, ctl);
    case _ =>
  }

  lemma OpenReady(s: Sys, t: nat)
    requires FilesUsed(s.c.fs, s.ts) && t < |s.ts| && s.ts[t].OpenDevice?
    ensures s.ts[t].op.Undo? ==> s.ts[t].f in s.c.fs.here
  {
    TotalAtLeast(Weight(OpenedBy(s.ts[t].f)), s.ts, t);
    assert FileMeasures(s.ts[t].f, s.c.fs, s.ts);
  }

  lemma MarkReady(s: Sys, t: nat)
    requires Balances(s) && t < |s.ts| && s.ts[t].CleanupMark?
    ensures s.ts[t].f in s.c.fs.begun && s.ts[t].f !in s.c.fs.cleaned
  {
    var f := s.ts[t].f;
    assert IsLaw(Cleaning(f));
    TotalAtLeast(Cleaning(f), s.ts, t);
    assert Part(Cleaning(f), s.c) + Total(Cleaning(f), s.ts) == 0;
  }

  lemma ControlReady(b: Binding, ctl: ControlPc)
    requires ControlShape(b, Control(ctl))
    ensures ControlPrepared(b, ctl)
  {
  }

  /** The thread that weighs as the holder of the lock has it. */
  lemma HolderHasLock(s: Sys, t: nat, h: Holder)
    requires Balances(s) && t < |s.ts| && HoldsLock(s.ts[t], h)
    ensures s.c.lock == Some(h)
  {
    assert IsLaw(LockHeld(h));
    TotalAtLeast(LockHeld(h), s.ts, t);
    assert Part(LockHeld(h), s.c) + Total(LockHeld(h), s.ts) == 0;
  }

  lemma ReceiveReady(s: Sys, t: nat)
    requires Inv(s) && t < |s.ts| && s.ts[t].Receive? && Enabled(s.c, s.ts[t])
    ensures ReceivePrepared(s.c, s.ts[t].n, s.ts[t].q)
  {
    if s.ts[t].q.QueueAgain? {
      HolderHasLock(s, t, ByReceive(s.ts[t].n));
    }
  }

  lemma ReadReady(s: Sys, t: nat)
    requires Inv(s) && t < |s.ts| && s.ts[t].Read? && Enabled(s.c, s.ts[t])
    ensures ReadPrepared(s.c, s.ts[t].x, s.ts[t].r)
    ensures s.ts[t].x !in s.c.rd.stored && Count(s.c.rd.pended, s.ts[t].x) == 0
  {
    var x := s.ts[t].x;
    assert IsLaw(OfReads(At(x))) && IsLaw(OfReads(Listed(x))) && IsLaw(OfReads(Claimed(x)));
    TotalAtLeast(OfReads(At(x)), s.ts, t);
    TotalDominated(OfReads(Listed(x)), OfReads(At(x)), s.ts, t);
    assert Part(OfReads(At(x)), s.c) + Total(OfReads(At(x)), s.ts) == 0;
    assert Part(OfReads(Listed(x)), s.c) + Total(OfReads(Listed(x)), s.ts) == 0;
    assert Part(OfReads(Claimed(x)), s.c) + Total(OfReads(Claimed(x)), s.ts) == 0;
    if s.ts[t].r.Test? || s.ts[t].r.List? {
      HolderHasLock(s, t, ByRead(x));
    }
  }

  lemma CancelReady(s: Sys, t: nat)
    requires Inv(s) && t < |s.ts| && s.ts[t].CancelRead? && s.ts[t].cr.Unlink? && s.c.lock == None
    ensures s.ts[t].x in s.c.rd.pended
  {
    var x := s.ts[t].x;
    assert IsLaw(OfReads(Claimed(x)));
    TotalAtLeast(OfReads(Claimed(x)), s.ts, t);
    assert Part(OfReads(Claimed(x)), s.c) + Total(OfReads(Claimed(x)), s.ts) == 0;
    CountIn(s.c.rd.pended, x);
  }

  lemma WriteReady(s: Sys, t: nat)
    requires Inv(s) && t < |s.ts| && s.ts[t].Write?
    ensures WritePrepared(s.c.tx, s.ts[t].w, s.ts[t].wp)
  {
    var w := s.ts[t].w;
    var k := OfSends(WriteAt(w));
    assert IsLaw(k) && IsLaw(OfSends(WentAt(w))) && IsLaw(OfSends(StoredAt(w)));
    TotalAtLeast(k, s.ts, t);
    assert Part(k, s.c) + Total(k, s.ts) == 0;
    if s.ts[t].wp.WriteLock? {
      TotalDominated(OfSends(WentAt(w)), k, s.ts, t);
      assert Part(OfSends(WentAt(w)), s.c) + Total(OfSends(WentAt(w)), s.ts) == 0;
      TotalDominated(OfSends(StoredAt(w)), k, s.ts, t);
      assert Part(OfSends(StoredAt(w)), s.c) + Total(OfSends(StoredAt(w)), s.ts) == 0;
    }
  }

  lemma SentReady(s: Sys, t: nat)
    requires Inv(s) && t < |s.ts| && s.ts[t].Sent?
    ensures SentPrepared(s.c.tx, s.ts[t].chain, s.ts[t].sp)
  {
    var w := s.ts[t].chain[0];
    CountTail(s.ts[t].chain);
    var k := OfSends(StoredAt(w));
    assert IsLaw(k) && IsLaw(OfSends(LinkedAt(w)));
    if s.ts[t].sp.ClearCancel? {
      TotalAtLeast(k, s.ts, t);
      assert Part(k, s.c) + Total(k, s.ts) == 0;
    } else if s.ts[t].sp.UnlinkWrite? {
      TotalAtLeast(OfSends(LinkedAt(w)), s.ts, t);
      assert Part(OfSends(LinkedAt(w)), s.c) + Total(OfSends(LinkedAt(w)), s.ts) == 0;
      CountIn(s.c.tx.pended, w);
    }
  }
}
