/** Every step of every run keeps the invariant. */
module Preserve {
  import opened Wrappers
  import opened Lists
  import opened Protocol
  import opened Laws
  import opened Runs
  import opened Invariant
  import opened Actions

  // ---- Steps of threads -------------------------------------------------------

  lemma RunBalances(s: Sys, t: nat, o: bool)
    requires Inv(s) && Guard(s, Run(t, o))
    ensures Balances(Next(s, Run(t, o)))
  {
    var s' := Next(s, Run(t, o));
    Ready(s, t, o);
    forall k | IsLaw(k) ensures Part(k, s'.c) + Total(k, s'.ts) == 0 {
      assert Part(k, s.c) + Total(k, s.ts) == 0;
      Conserve(s.c, s.ts[t], o, k);
      TotalUpdate(k, s.ts, t, s'.ts[t]);
    }
  }

  /** The counters that are read before they are decremented are positive. */
  lemma CountsPositive(s: Sys)
    requires Balances(s)
    ensures s.c.tx.count >= 0 && s.c.rd.count >= 0 && s.c.refCount >= 0
    ensures s.c.tx.count == |s.c.tx.inNdis| + Total(OfSends(Counted), s.ts)
    ensures s.c.rd.count == |s.c.rd.pended| + Total(OfReads(InFlight), s.ts)
  {
    assert IsLaw(OfSends(Counted)) && IsLaw(OfReads(InFlight)) && IsLaw(References);
    assert Part(OfSends(Counted), s.c) + Total(OfSends(Counted), s.ts) == 0;
    assert Part(OfReads(InFlight), s.c) + Total(OfReads(InFlight), s.ts) == 0;
    assert Part(References, s.c) + Total(References, s.ts) == 0;
  }

  // ---- Control steps

  lemma BindKeeps(c: Ctx, bp: BindPc)
    requires BindShape(c.b, bp) && Drained(c, Control(Bind(bp))) && EventExact(c, Control(Bind(bp)))
    ensures var (c', pc') := ActBind(c, bp);
            ControlShape(c'.b, pc') && Drained(c', pc') && EventExact(c', pc')
  {
  }

  lemma ResourceKeeps(c: Ctx, rp: ResourcePc, o: bool)
    requires ControlShape(c.b, Control(Resource(rp)))
    requires Drained(c, Control(Resource(rp))) && EventExact(c, Control(Resource(rp)))
    ensures var (c', pc') := ActResource(c, rp, o);
            ControlShape(c'.b, pc') && Drained(c', pc') && EventExact(c', pc')
  {
  }

  lemma UnbindKeeps(c: Ctx, up: UnbindPc)
    requires ControlShape(c.b, Control(Unbind(up))) && (up.UnbindState? || c.lock == None)
    requires Drained(c, Control(Unbind(up))) && EventExact(c, Control(Unbind(up))) && c.tx.count >= 0
    ensures var (c', pc') := ActUnbind(c, up);
            ControlShape(c'.b, pc') && Drained(c', pc') && EventExact(c', pc')
  {
  }

  lemma DrainKeeps(c: Ctx, dp: DrainPc)
    requires ControlShape(c.b, Control(Drain(dp))) && (dp.ShutWait? ==> c.tx.signalled)
    requires Drained(c, Control(Drain(dp))) && EventExact(c, Control(Drain(dp))) && c.tx.count >= 0
    ensures var (c', pc') := ActDrain(c, dp);
            ControlShape(c'.b, pc') && Drained(c', pc') && EventExact(c', pc')
  {
  }

  lemma ReleaseKeeps(c: Ctx, sp: ReleasePc, failed: bool)
    requires ControlShape(c.b, Control(Release(sp, failed)))
    requires Drained(c, Control(Release(sp, failed))) && EventExact(c, Control(Release(sp, failed)))
    ensures var (c', pc') := ActRelease(c, sp, failed);
            ControlShape(c'.b, pc') && Drained(c', pc') && EventExact(c', pc')
  {
  }

  lemma EventKeeps(c: Ctx, ep: EventPc)
    requires ControlShape(c.b, Control(Event(ep)))
    requires Drained(c, Control(Event(ep))) && EventExact(c, Control(Event(ep)))
    ensures var (c', pc') := ActEvent(c, ep);
            ControlShape(c'.b, pc') && Drained(c', pc') && EventExact(c', pc')
  {
  }

  lemma ControlPcKeeps(c: Ctx, ctl: ControlPc, o: bool)
    requires Enabled(c, Control(ctl)) && c.tx.count >= 0
    requires ControlShape(c.b, Control(ctl)) && Drained(c, Control(ctl)) && EventExact(c, Control(ctl))
    ensures var (c', pc') := ActControl(c, ctl, o);
            ControlShape(c'.b, pc') && Drained(c', pc') && EventExact(c', pc')
  {
    match ctl
    case Bind(bp) => BindKeeps(c, bp);
    case Resource(rp) => ResourceKeeps(c, rp, o);
    case Unbind(up) => UnbindKeeps(c, up);
    case Drain(dp) => DrainKeeps(c, dp);
    case Release(sp, failed) => ReleaseKeeps(c, sp, failed);
    case Event(ep) => EventKeeps(c, ep);
    case _ =>
  }

  lemma PurgeKeeps(c: Ctx, p: PurgePc)
    requires ControlShape(c.b, Purge(FromShutdown, p)) && Drained(c, Purge(FromShutdown, p))
    requires EventExact(c, Purge(FromShutdown, p))
    ensures var (c', pc') := ActPurge(c, FromShutdown, p);
            ControlShape(c'.b, pc') && Drained(c', pc') && EventExact(c', pc') && IsControl(pc') && WellFormed(pc')
  {
    PurgeGentle(c, FromShutdown, p);
  }

  lemma FlushKeeps(c: Ctx, k: FlushCaller, fl: FlushPc)
    requires !k.AtCleanup? && ControlShape(c.b, Flush(k, fl)) && Drained(c, Flush(k, fl)) && EventExact(c, Flush(k, fl))
    ensures var (c', pc') := ActFlush(c, k, fl);
            ControlShape(c'.b, pc') && Drained(c', pc') && EventExact(c', pc') && IsControl(pc') && WellFormed(pc')
  {
    FlushGentle(c, k, fl);
  }

  lemma ControlKeeps(c: Ctx, pc: Pc, o: bool)
    requires IsControl(pc) && Enabled(c, pc) && c.tx.count >= 0 && Prepared(c, pc)
    requires ControlShape(c.b, pc) && Drained(c, pc) && EventExact(c, pc)
    ensures var (c', pc') := Act(c, pc, o);
            ControlShape(c'.b, pc') && Drained(c', pc') && EventExact(c', pc') && IsControl(pc') && WellFormed(pc')
  {
    match pc
    case Purge(k, p) => PurgeKeeps(c, p);
    case Flush(k, fl) => FlushKeeps(c, k, fl);
    case Control(ctl) => ControlPcKeeps(c, ctl, o); ControlStep(c, ctl, o);
    case _ =>
  }

  /** A gentle step leaves the assertions of the control thread true. */
  lemma GentleKeeps(c: Ctx, c': Ctx, pc0: Pc)
    requires Gentle(c, c') && Signals(c, c') && IsControl(pc0)
    requires c.tx.count >= 0 && c'.tx.count >= 0 && c'.rd.count >= 0
    requires ControlShape(c.b, pc0) && Drained(c, pc0) && EventExact(c, pc0) && QuietQueue(c, pc0)
    ensures ControlShape(c'.b, pc0) && Drained(c', pc0) && EventExact(c', pc0) && QuietQueue(c', pc0)
  {
    if QueueDrained(pc0) {
      assert !Admits(c);
    }
    if SendsDrained(pc0) || ReadsDrained(pc0) {
      assert c.b.bind != BindActive;
    }
  }

  /** The control thread keeps its promises about the queue. */
  lemma ControlQuiet(c: Ctx, pc: Pc, o: bool)
    requires WellFormed(pc) && IsControl(pc) && Enabled(c, pc)
    requires ControlShape(c.b, pc) && Drained(c, pc) && QuietQueue(c, pc)
    ensures var (c', pc') := Act(c, pc, o); QuietQueue(c', pc') && (Fifo(c.rx) ==> Fifo(c'.rx))
  {
    hide ActPurge, ActFlush, ActBind, ActResource, ActUnbind, ActDrain, ActRelease, ActEvent, QuietQueue, Fifo;
    match pc
    case Purge(k, p) => PurgeQuiet(c, k, p);
    case Flush(k, fl) => FlushQuiet(c, k, fl);
    case Control(ctl) =>
      match ctl {
        case Bind(bp) => BindQuiet(c, bp);
        case Resource(rp) => ResourceQuiet(c, rp, o);
        case Unbind(up) => UnbindQuiet(c, up);
        case Drain(dp) => DrainQuiet(c, dp);
        case Release(sp, failed) => ReleaseQuiet(c, sp, failed);
        case Event(ep) => EventQuiet(c, ep);
        case _ =>
      }
    case _ =>
  }

  lemma PurgeQuiet(c: Ctx, k: PurgeCaller, p: PurgePc)
    requires k.FromShutdown? && QuietQueue(c, Purge(k, p))
    ensures var (c', pc') := ActPurge(c, k, p); QuietQueue(c', pc') && c'.rx == c.rx
  {
    PurgeGentle(c, k, p);
  }

  lemma FlushQuiet(c: Ctx, k: FlushCaller, fl: FlushPc)
    requires !k.AtCleanup? && ControlShape(c.b, Flush(k, fl)) && Drained(c, Flush(k, fl)) && QuietQueue(c, Flush(k, fl))
    ensures var (c', pc') := ActFlush(c, k, fl); QuietQueue(c', pc') && (Fifo(c.rx) ==> Fifo(c'.rx))
  {
    FlushGentle(c, k, fl);
  }

  lemma BindQuiet(c: Ctx, bp: BindPc)
    requires BindShape(c.b, bp) && Drained(c, Control(Bind(bp))) && QuietQueue(c, Control(Bind(bp)))
    requires bp.BindActivate? ==> c.lock == None
    ensures var (c', pc') := ActBind(c, bp); QuietQueue(c', pc') && c'.rx == c.rx
  {
  }

  lemma ResourceQuiet(c: Ctx, rp: ResourcePc, o: bool)
    requires ControlShape(c.b, Control(Resource(rp))) && QuietQueue(c, Control(Resource(rp)))
    ensures var (c', pc') := ActResource(c, rp, o); QuietQueue(c', pc') && c'.rx == c.rx
  {
  }

  lemma DrainQuiet(c: Ctx, dp: DrainPc)
    requires ControlShape(c.b, Control(Drain(dp))) && QuietQueue(c, Control(Drain(dp)))
    ensures var (c', pc') := ActDrain(c, dp); QuietQueue(c', pc') && c'.rx == c.rx
  {
  }

  lemma EventQuiet(c: Ctx, ep: EventPc)
    requires ControlShape(c.b, Control(Event(ep))) && Drained(c, Control(Event(ep)))
    requires QuietQueue(c, Control(Event(ep)))
    ensures var (c', pc') := ActEvent(c, ep); QuietQueue(c', pc') && c'.rx == c.rx
  {
  }

  lemma UnbindQuiet(c: Ctx, up: UnbindPc)
    requires ControlShape(c.b, Control(Unbind(up))) && QuietQueue(c, Control(Unbind(up)))
    ensures var (c', pc') := ActUnbind(c, up); QuietQueue(c', pc') && c'.rx == c.rx
  {
  }

  lemma ReleaseQuiet(c: Ctx, sp: ReleasePc, failed: bool)
    requires ControlShape(c.b, Control(Release(sp, failed))) && QuietQueue(c, Control(Release(sp, failed)))
    ensures var (c', pc') := ActRelease(c, sp, failed); QuietQueue(c', pc') && c'.rx == c.rx
  {
  }

  lemma RunControl(s: Sys, t: nat, o: bool)
    requires Inv(s) && Guard(s, Run(t, o))
    ensures var s' := Next(s, Run(t, o));
            && ThreadsWellFormed(s'.ts)
            && ControlShape(s'.c.b, s'.ts[0]) && Drained(s'.c, s'.ts[0]) && EventExact(s'.c, s'.ts[0])
            && QuietQueue(s'.c, s'.ts[0]) && Fifo(s'.c.rx)
  {
    hide Act, Prepared, Balances, FilesUsed, Working, Exclusive, FreedOnce, QuietWrites;
    hide ControlShape, Drained, EventExact, QuietQueue, Fifo, Signals, Enabled;
    var s' := Next(s, Run(t, o));
    Ready(s, t, o);
    RunBalances(s, t, o);
    CountsPositive(s);
    CountsPositive(s');
    if t == 0 {
      ControlKeeps(s.c, s.ts[0], o);
      ControlQuiet(s.c, s.ts[0], o);
    } else {
      OthersGentle(s.c, s.ts[t], o);
      GentleKeeps(s.c, s'.c, s.ts[0]);
    }
  }

  // ---- Writes and pause

  /** What a step adds to the writes that are outstanding. */
  function WriteDelta(c: Ctx, pc: Pc, o: bool): int {
    if pc.Write? && pc.wp.WriteLock? && c.b.bind == BindActive && c.b.state == Running && c.b.d0 && !o then 1
    else if pc.Sent? && pc.sp.SentDecrement? then -1
    else 0
  }

  lemma WriterStep(c: Ctx, w: Irp, f: File, wp: WritePc, o: bool)
    requires WritePrepared(c.tx, w, wp)
    ensures var (c', pc') := ActWrite(c, w, f, wp, o);
            |c'.tx.inNdis| + WriteWeight(pc')
            == |c.tx.inNdis| + WriteWeight(Write(w, f, wp)) + WriteDelta(c, Write(w, f, wp), o)
  {
  }

  lemma SentStep(c: Ctx, ch: seq<Irp>, sp: SentPc, o: bool)
    requires ch != []
    ensures var (c', pc') := ActSent(c, ch, sp);
            |c'.tx.inNdis| + WriteWeight(pc')
            == |c.tx.inNdis| + WriteWeight(Sent(ch, sp)) + WriteDelta(c, Sent(ch, sp), o)
  {
  }

  lemma RestStep(c: Ctx, pc: Pc, o: bool)
    requires IsRest(pc)
    ensures var (c', pc') := Act(c, pc, o); c'.tx.inNdis == c.tx.inNdis && WriteWeight(pc') == 0
  {
  }

  lemma WriteStep(c: Ctx, pc: Pc, o: bool)
    requires WellFormed(pc) && Prepared(c, pc)
    ensures var (c', pc') := Act(c, pc, o);
            |c'.tx.inNdis| + WriteWeight(pc') == |c.tx.inNdis| + WriteWeight(pc) + WriteDelta(c, pc, o)
  {
    match pc
    case Read(x, f, r) => ReadActRest(c, x, f, r);
    case Service(q, v) => ServiceActFrame(c, q, v);
    case CancelRead(x, cr) => CancelReadActRest(c, x, cr);
    case Control(ctl) => ControlStep(c, ctl, o);
    case Purge(q, p) => PurgeActRest(c, q, p);
    case Flush(q, fl) => FlushActFrame(c, q, fl);
    case Receive(m, q) => ReceiveActFrame(c, m, q);
    case Write(w, f, wp) => WriterStep(c, w, f, wp, o);
    case Sent(ch, sp) => SentStep(c, ch, sp, o);
    case _ => RestStep(c, pc, o);
  }

  lemma RunWrites(s: Sys, t: nat, o: bool)
    requires Inv(s) && Guard(s, Run(t, o))
    ensures WritesOutstanding(Next(s, Run(t, o))) == WritesOutstanding(s) + WriteDelta(s.c, s.ts[t], o)
  {
    hide Act, Balances, FilesUsed, Working, Exclusive, FreedOnce, QuietWrites, EventExact, QuietQueue, Fifo, Drained;
    hide ControlShape, ThreadsKnow, Prepared, WriteDelta;
    Ready(s, t, o);
    WriteStep(s.c, s.ts[t], o);
    TotalUpdate(Weight(WritesOut), s.ts, t, Act(s.c, s.ts[t], o).1);
  }

  lemma RunQuietWrites(s: Sys, t: nat, o: bool)
    requires Inv(s) && Guard(s, Run(t, o))
    ensures QuietWrites(Next(s, Run(t, o)))
  {
    RunWrites(s, t, o);
    RunControl(s, t, o);
    if t == 0 {
      PauseStarts(s, o);
    } else {
      Ready(s, t, o);
      OthersGentle(s.c, s.ts[t], o);
    }
  }

  /** Nothing counted means no write outstanding. */
  lemma NoneCounted(s: Sys)
    requires Balances(s) && s.c.tx.count == 0
    ensures WritesOutstanding(s) == 0
  {
    CountsPositive(s);
    TotalBelow(Weight(WritesOut), OfSends(Counted), s.ts);
  }

  lemma PauseStarts(s: Sys, o: bool)
    requires Inv(s) && Guard(s, Run(0, o))
    ensures var s' := Next(s, Run(0, o));
            PauseWaited(s'.ts[0]) || s'.c.b.state == Paused ==> WritesOutstanding(s) == 0
  {
    var pc := s.ts[0];
    Ready(s, 0, o);
    if s.c.tx.count == 0 {
      NoneCounted(s);
    } else if pc.Flush? {
      FlushGentle(s.c, pc.fk, pc.fl);
    } else {
      ControlStep(s.c, pc.ctl, o);
    }
  }

  // ---- Work, indications, references

  lemma ReadyToWork(s: Sys, t: nat, o: bool)
    requires Inv(s) && Guard(s, Run(t, o))
    ensures WorkKept(s.c, s.ts[t], Act(s.c, s.ts[t], o).0, Act(s.c, s.ts[t], o).1)
  {
    Ready(s, t, o);
    if s.ts[t].Read? {
      ReadReady(s, t);
      CountIn(s.c.rd.pended, s.ts[t].x);
    }
    WorkStep(s.c, s.ts[t], o);
  }

  lemma WorkTotal(c: Ctx, ts: seq<Pc>, t: nat, c': Ctx, pc': Pc)
    requires t < |ts| && Working(c, ts) && WorkKept(c, ts[t], c', pc')
    ensures Working(c', ts[t := pc'])
  {
    var k := Weight(Committed);
    TotalUpdate(k, ts, t, pc');
    TotalAtLeast(k, ts[t := pc'], t);
  }

  lemma RunWork(s: Sys, t: nat, o: bool)
    requires Inv(s) && Guard(s, Run(t, o))
    ensures Working(Next(s, Run(t, o)).c, Next(s, Run(t, o)).ts)
  {
    ReadyToWork(s, t, o);
    WorkTotal(s.c, s.ts, t, Act(s.c, s.ts[t], o).0, Act(s.c, s.ts[t], o).1);
  }

  lemma RunIndications(s: Sys, t: nat, o: bool)
    requires Inv(s) && Guard(s, Run(t, o))
    ensures var s' := Next(s, Run(t, o)); !s'.c.b.adapter ==> Total(Weight(Indicating), s'.ts) == 0
  {
    hide Act, Balances, FilesUsed, Working, Exclusive, FreedOnce, QuietWrites, EventExact, QuietQueue, Fifo, Drained;
    hide ControlShape, ThreadsKnow, Prepared;
    var s' := Next(s, Run(t, o));
    Ready(s, t, o);
    MeasuresFall(s.c, s.ts[t], o, 0);
    TotalUpdate(Weight(Indicating), s.ts, t, s'.ts[t]);
    if t != 0 {
      OthersGentle(s.c, s.ts[t], o);
    } else {
      AdapterCloses(s.c, s.ts[0], o);
    }
  }

  lemma AdapterCloses(c: Ctx, pc: Pc, o: bool)
    requires Prepared(c, pc) && IsControl(pc)
    ensures WellFormed(pc)
    ensures var (c', pc') := Act(c, pc, o); c.b.adapter && !c'.b.adapter ==> pc == Control(Drain(ShutClose))
  {
    match pc
    case Purge(k, p) => PurgeActRest(c, k, p);
    case Flush(k, fl) => FlushActFrame(c, k, fl);
    case Control(ctl) => ControlStep(c, ctl, o);
    case _ =>
  }

  /** Whatever touches the context, except through FsContext alone, holds a reference or stands on one that is
      held until it is done: that of the binding, of a file object in its open or cleanup, of a listed read, or
      of a counted send or request. */
  lemma Alive(s: Sys, t: nat)
    requires Inv(s) && t < |s.ts| && Touches(s.c, s.ts[t]) && Enabled(s.c, s.ts[t]) && !StandsOnFile(s.ts[t])
    ensures s.c.refCount > 0 || s.ts[t] == Control(Bind(BindRef))
  {
    hide FilesUsed, Working, Exclusive, FreedOnce, QuietWrites, EventExact, QuietQueue, Fifo, Drained, ControlShape;
    hide ThreadsKnow, Balances;
    var pc := s.ts[t];
    Ledger(s, t);
    ShapeBound(s.c.b, s.ts[0]);
    if IsControl(pc) {
      HandlerBound(s.c.b, pc);
    } else if Refs(pc) == 0 {
      match pc
      case Read(x, f, r) => LockedIsBound(s, t);
      case CancelRead(x, cr) => CancelReady(s, t);
      case Purge(FromCleanup(f), _) => OnFile(s, t, f);
      case Flush(AtCleanup(f), _) => OnFile(s, t, f);
      case CleanupMark(f) => OnFile(s, t, f);
      case Request(ForCleanup(f), _) => OnFile(s, t, f);
      case Request(ForOpen(f), _) => OnOpen(s, t, f);
      case Request(ForIoctl(f), _) => CountedIsBound(s, t);
      case OpenDevice(f, op) => if op.Undo? { OnOpen(s, t, f); }
      case CancelWrite(w, cw) => OnSend(s, w);
      case Receive(_, _) => OnAdapter(s, t);
      case Service(_, _) => OnAdapter(s, t);
      case _ =>
    }
  }

  lemma Ledger(s: Sys, t: nat)
    requires Balances(s) && t < |s.ts|
    ensures s.c.refCount >= Refs(s.ts[t]) && s.c.refCount >= Ind(s.c.b.bound)
    ensures s.c.refCount >= |s.c.rd.pended| && s.c.refCount >= |s.c.tx.inNdis| + Total(References, s.ts)
    ensures s.c.refCount >= |s.c.fs.here|
  {
    assert IsLaw(References);
    assert Part(References, s.c) + Total(References, s.ts) == 0;
    TotalAtLeast(References, s.ts, t);
  }

  /** A read dispatch routine that holds the lock runs under an ACTIVE binding. */
  lemma LockedIsBound(s: Sys, t: nat)
    requires Inv(s) && t < |s.ts| && s.ts[t].Read? && (s.ts[t].r.Test? || s.ts[t].r.List?)
    ensures s.c.b.bound
  {
    hide Balances;
    HolderHasLock(s, t, ByRead(s.ts[t].x));
    ActiveIsBound(s.c.b, s.ts[0]);
  }

  lemma ActiveIsBound(b: Binding, pc: Pc)
    requires IsControl(pc) && ControlShape(b, pc) && b.bind == BindActive
    ensures b.bound
  {
  }

  /** A counted request keeps the binding. */
  lemma CountedIsBound(s: Sys, t: nat)
    requires Inv(s) && t < |s.ts| && s.ts[t].Request? && !s.ts[t].rp.RequestEnter?
    ensures s.c.b.bound
  {
    hide FilesUsed, Working, Exclusive, FreedOnce, QuietWrites, EventExact, QuietQueue, Fifo;
    CountsPositive(s);
    TotalAtLeast(OfSends(Counted), s.ts, t);
    CountedShape(s.c, s.ts[0]);
  }

  lemma CountedShape(c: Ctx, pc: Pc)
    requires IsControl(pc) && ControlShape(c.b, pc) && Drained(c, pc)
    requires c.tx.count > 0 || c.rd.count > 0 || c.rx.queue != []
    ensures c.b.handle && c.b.adapter && c.b.listed && c.b.bound
  {
  }

  lemma OnAdapter(s: Sys, t: nat)
    requires Inv(s) && t < |s.ts| && IsIndication(s.ts[t])
    ensures s.c.b.adapter
  {
    TotalAtLeast(Weight(Indicating), s.ts, t);
  }

  /** The control thread holds a reference of its own or runs on the reference of the binding. */
  lemma HandlerBound(b: Binding, pc: Pc)
    requires IsControl(pc) && ControlShape(b, pc) && !Stopped(pc)
    ensures b.bound || Refs(pc) > 0 || pc == Control(Bind(BindRef))
  {
  }

  lemma ShapeBound(b: Binding, pc: Pc)
    requires IsControl(pc) && ControlShape(b, pc)
    ensures b.adapter || b.listed ==> b.bound
  {
  }

  lemma OnFile(s: Sys, t: nat, f: File)
    requires Inv(s) && t < |s.ts| && CleanupWeight(s.ts[t], f) > 0
    ensures |s.c.fs.here| > 0
  {
    TotalAtLeast(Weight(CleanupOf(f)), s.ts, t);
    assert FileMeasures(f, s.c.fs, s.ts);
  }

  lemma OnOpen(s: Sys, t: nat, f: File)
    requires Inv(s) && t < |s.ts| && OpenedWeight(s.ts[t], f) > 0
    ensures |s.c.fs.here| > 0
  {
    TotalAtLeast(Weight(OpenedBy(f)), s.ts, t);
    assert FileMeasures(f, s.c.fs, s.ts);
  }

  lemma OnSend(s: Sys, w: Irp)
    requires Inv(s) && w in s.c.tx.stored
    ensures |s.c.tx.inNdis| + Total(References, s.ts) > 0
  {
    var k := OfSends(StoredAt(w));
    assert IsLaw(k);
    assert Part(k, s.c) + Total(k, s.ts) == 0;
    if w !in s.c.tx.inNdis {
      var u := TotalWitness(k, s.ts);
      TotalAtLeast(References, s.ts, u);
    }
  }

  /** An action that touches the context finds its reference count positive, but for the very first one. */
  lemma TouchAlive(s: Sys, t: nat, o: bool)
    requires Inv(s) && Guard(s, Run(t, o)) && Touches(s.c, s.ts[t])
    ensures s.c.refCount > 0 || s.ts[t] == Control(Bind(BindRef))
  {
    hide Act, Balances, FilesUsed, Working, Exclusive, QuietWrites, EventExact, QuietQueue, Fifo, Drained;
    hide ControlShape, ThreadsKnow, Touches, Prepared;
    CountsPositive(s);
    if StandsOnFile(s.ts[t]) {
      TotalAtLeast(Weight(Dispatched), s.ts, t);
    } else {
      Alive(s, t);
    }
  }

  lemma RunReference(s: Sys, t: nat, o: bool)
    requires Inv(s) && Guard(s, Run(t, o))
    ensures var s' := Next(s, Run(t, o)); FreedOnce(s'.c, s'.ts[0])
  {
    var s' := Next(s, Run(t, o));
    hide Act, Balances, FilesUsed, Working, Exclusive, QuietWrites, EventExact, QuietQueue, Fifo, Drained;
    hide ControlShape, ThreadsKnow, Touches, Prepared, CountsReference, FreedOnce;
    ReferenceStep(s.c, s.ts[t], o);
    RunBalances(s, t, o);
    CountsPositive(s);
    CountsPositive(s');
    if Touches(s.c, s.ts[t]) {
      TouchAlive(s, t, o);
    }
    if t == 0 {
      Born(s.c, s.ts[0], o);
    }
    CountedFreedOnce(s.c, s.ts[t], s'.c, s.ts[0], s'.ts[0]);
  }

  /** A count that moves as counted keeps the one free, if a thread that touches the count finds it positive. */
  lemma CountedFreedOnce(c: Ctx, pc: Pc, c': Ctx, handler: Pc, handler': Pc)
    requires FreedOnce(c, handler) && CountsReference(c, pc, c') && c.refCount >= 0 && c'.refCount >= 0
    requires Touches(c, pc) ==> c.refCount > 0 || pc == Control(Bind(BindRef))
    requires if pc == Control(Bind(BindRef))
             then handler == pc && !Unborn(handler') && c'.refCount == c.refCount + 1 && c'.frees == c.frees
             else handler' == handler || !(Unborn(handler) || Unborn(handler'))
    ensures FreedOnce(c', handler')
  {
  }

  lemma Born(c: Ctx, pc: Pc, o: bool)
    requires WellFormed(pc) && IsControl(pc) && Enabled(c, pc)
    ensures var (c', pc') := Act(c, pc, o);
            && pc' != Control(New) && pc' != Control(Bind(BindRef))
            && (pc == Control(Bind(BindRef)) ==> c'.refCount == c.refCount + 1 && c'.frees == c.frees)
  {
    match pc
    case Purge(k, p) => PurgeActRest(c, k, p);
    case Flush(k, fl) =>
    case _ =>
  }

  lemma RunUnborn(s: Sys, t: nat, o: bool)
    requires Inv(s) && Guard(s, Run(t, o))
    ensures Unborn(Next(s, Run(t, o)).ts[0]) ==> Total(Weight(Dispatched), Next(s, Run(t, o)).ts) == 0
  {
    hide Act, Balances, FilesUsed, Working, Exclusive, FreedOnce, QuietWrites, EventExact, QuietQueue, Fifo, Drained;
    hide ControlShape, ThreadsKnow;
    var s' := Next(s, Run(t, o));
    if t == 0 {
      Born(s.c, s.ts[0], o);
    } else {
      MeasuresFall(s.c, s.ts[t], o, 0);
      TotalUpdate(Weight(Dispatched), s.ts, t, s'.ts[t]);
    }
  }

  // ---- What threads remember

  lemma ReadKnows(c: Ctx, x: Irp, f: File, r: ReadPc)
    ensures Knows(ActRead(c, x, f, r).0, ActRead(c, x, f, r).1)
  {
  }

  lemma ServiceKnows(c: Ctx, k: ServiceCaller, v: ServicePc)
    requires Knows(c, Service(k, v))
    ensures Knows(ActService(c, k, v).0, ActService(c, k, v).1)
  {
    hide ServiceTest;
    TakeKnows(c, k);
    TakeKnows(c.(rd := c.rd.(count := c.rd.count - 1)), k);
  }

  lemma TakeKnows(c: Ctx, k: ServiceCaller)
    ensures var (c', pc') := ServiceTest(c, k); c'.rd.stored == c.rd.stored && pc'.Service? && pc'.k == k
  {
  }

  lemma CancelWriteKnows(c: Ctx, w: Irp, cw: CancelWritePc)
    requires Knows(c, CancelWrite(w, cw)) && (w in c.tx.stored ==> w in c.tx.went)
    ensures Knows(ActCancelWrite(c, w, cw).0, ActCancelWrite(c, w, cw).1)
  {
  }

  lemma ActKnows(c: Ctx, pc: Pc, o: bool)
    requires WellFormed(pc) && Prepared(c, pc) && Knows(c, pc)
    requires pc.CancelWrite? && pc.w in c.tx.stored ==> pc.w in c.tx.went
    ensures Knows(Act(c, pc, o).0, Act(c, pc, o).1)
  {
    hide ActRead, ActService, ActCancelWrite, ActFlush, ActWrite, ActSent, ActRequest, ActOpen, ActControl;
    hide ActReceive, ActCancelRead, ActPurge;
    match pc
    case Read(x, f, r) => ReadKnows(c, x, f, r);
    case Service(k, v) => ServiceKnows(c, k, v);
    case CancelRead(x, cr) => CancelReadActRest(c, x, cr);
    case Purge(k, p) => PurgeActRest(c, k, p);
    case Flush(k, fl) => FlushActFrame(c, k, fl);
    case Receive(n, q) => ReceiveActFrame(c, n, q);
    case Write(w, f, wp) => WriteActFrame(c, w, f, wp, o);
    case Sent(ch, sp) => SentActRest(c, ch, sp);
    case CancelWrite(w, cw) => CancelWriteKnows(c, w, cw);
    case Request(k, rp) => RequestFalls(c, k, rp, o, 0); RequestKind(c, k, rp, o);
    case OpenDevice(f, op) => OpenKind(c, f, op, o);
    case Control(ctl) => ControlStep(c, ctl, o);
    case _ =>
  }

  lemma RequestKind(c: Ctx, k: RequestCaller, rp: RequestPc, o: bool)
    ensures !ActRequest(c, k, rp, o).1.Service? && !ActRequest(c, k, rp, o).1.CancelWrite?
  {
  }

  lemma OpenKind(c: Ctx, f: File, op: OpenPc, o: bool)
    ensures !ActOpen(c, f, op, o).1.Service? && !ActOpen(c, f, op, o).1.CancelWrite?
  {
  }

  /** A write that names its context has been sent. */
  lemma StoredWent(s: Sys, w: Irp)
    requires Balances(s) && w in s.c.tx.stored
    ensures w in s.c.tx.went
  {
    assert IsLaw(OfSends(StoredAt(w))) && IsLaw(OfSends(WentAt(w)));
    assert Part(OfSends(StoredAt(w)), s.c) + Total(OfSends(StoredAt(w)), s.ts) == 0;
    assert Part(OfSends(WentAt(w)), s.c) + Total(OfSends(WentAt(w)), s.ts) == 0;
    StoredBelowWent(s.ts, w);
  }

  lemma StoredBelowWent(ts: seq<Pc>, w: Irp)
    ensures Total(OfSends(StoredAt(w)), ts) <= Total(OfSends(WentAt(w)), ts)
  {
    forall pc {:trigger W(OfSends(StoredAt(w)), pc)} ensures W(OfSends(StoredAt(w)), pc) <= W(OfSends(WentAt(w)), pc) {
      if pc.Sent? && pc.chain != [] {
        CountTail(pc.chain);
      }
    }
    TotalBelow(OfSends(StoredAt(w)), OfSends(WentAt(w)), ts);
  }

  lemma RunKnows(s: Sys, t: nat, o: bool)
    requires Inv(s) && Guard(s, Run(t, o))
    ensures ThreadsKnow(Next(s, Run(t, o)))
  {
    hide Act, Balances, FilesUsed, Working, Exclusive, FreedOnce, QuietWrites, EventExact, QuietQueue, Fifo, Drained;
    hide ControlShape, Prepared, Enabled;
    Ready(s, t, o);
    if s.ts[t].CancelWrite? && s.ts[t].w in s.c.tx.stored {
      StoredWent(s, s.ts[t].w);
    }
    ActKnows(s.c, s.ts[t], o);
    HistoriesGrow(s.c, s.ts[t], o);
  }

  /** A write IRP has its cancel routine only while it names its context. */
  lemma RoutineStored(c: Ctx, pc: Pc, o: bool)
    requires WellFormed(pc) && Prepared(c, pc) && c.tx.routine <= c.tx.stored
    ensures Act(c, pc, o).0.tx.routine <= Act(c, pc, o).0.tx.stored
  {
    match pc
    case Read(x, f, r) => ReadActRest(c, x, f, r);
    case Service(q, v) => ServiceActFrame(c, q, v);
    case CancelRead(x, cr) => CancelReadActRest(c, x, cr);
    case Control(ctl) => ControlStep(c, ctl, o);
    case Purge(q, p) => PurgeActRest(c, q, p);
    case Flush(q, fl) => FlushActFrame(c, q, fl);
    case Receive(m, q) => ReceiveActFrame(c, m, q);
    case _ =>
  }

  // ---- File objects

  lemma ReadyForFiles(s: Sys, t: nat)
    requires Inv(s) && t < |s.ts| && TouchesFiles(s.ts[t])
    ensures s.ts[t].OpenDevice? ==> s.ts[t].f !in s.c.fs.begun
    ensures s.ts[t].OpenDevice? && s.ts[t].op.Undo? ==>
              s.ts[t].f in s.c.fs.here && Total(Weight(OpenedBy(s.ts[t].f)), s.ts) == 1
    ensures s.ts[t].CleanupMark? ==> s.ts[t].f in s.c.fs.here
  {
    assert FileMeasures(s.ts[t].f, s.c.fs, s.ts);
    TotalAtLeast(Weight(OpeningOf(s.ts[t].f)), s.ts, t);
    TotalAtLeast(Weight(OpenedBy(s.ts[t].f)), s.ts, t);
    TotalAtLeast(Weight(CleanupOf(s.ts[t].f)), s.ts, t);
  }

  lemma OpenExclusive(c: Ctx, f: File, op: OpenPc, o: bool)
    requires Exclusive(c.fs) && f !in c.fs.begun && (op.Undo? ==> f in c.fs.here)
    ensures Exclusive(ActOpen(c, f, op, o).0.fs)
  {
  }

  lemma CleanupExclusive(c: Ctx, f: File)
    requires Exclusive(c.fs) && f in c.fs.here && f in c.fs.begun
    requires f !in c.fs.cleaned
    ensures Exclusive(ActCleanupMark(c, f).0.fs)
  {
  }

  lemma RunExclusive(s: Sys, t: nat, o: bool)
    requires Inv(s) && Guard(s, Run(t, o))
    ensures Exclusive(Next(s, Run(t, o)).c.fs)
  {
    Ready(s, t, o);
    var pc := s.ts[t];
    if pc.OpenDevice? {
      ReadyForFiles(s, t);
      OpenExclusive(s.c, pc.f, pc.op, o);
    } else if pc.CleanupMark? {
      ReadyForFiles(s, t);
      CleanupExclusive(s.c, pc.f);
    } else {
      FilesKept(s.c, pc, o);
    }
  }

  lemma FileTotals(c: Ctx, ts: seq<Pc>, t: nat, o: bool, f: File)
    requires t < |ts| && WellFormed(ts[t])
    ensures var ts' := ts[t := Act(c, ts[t], o).1];
            && Total(Weight(CleanupOf(f)), ts') <= Total(Weight(CleanupOf(f)), ts)
            && Total(Weight(OpeningOf(f)), ts') <= Total(Weight(OpeningOf(f)), ts)
            && Total(Weight(OpenedBy(f)), ts')
               == Total(Weight(OpenedBy(f)), ts) - OpenedWeight(ts[t], f) + OpenedWeight(ts'[t], f)
            && (OpenedWeight(ts'[t], f) > OpenedWeight(ts[t], f) ==> ts[t] == OpenDevice(f, Associate))
  {
    var pc' := Act(c, ts[t], o).1;
    MeasuresFall(c, ts[t], o, f);
    TotalUpdate(Weight(CleanupOf(f)), ts, t, pc');
    TotalUpdate(Weight(OpenedBy(f)), ts, t, pc');
    TotalUpdate(Weight(OpeningOf(f)), ts, t, pc');
  }

  lemma OpenFiles(c: Ctx, ts: seq<Pc>, t: nat, o: bool, f: File)
    requires t < |ts| && ts[t].OpenDevice? && FileMeasures(f, c.fs, ts) && ts[t].f !in c.fs.begun
    requires ts[t].op.Undo? ==> Total(Weight(OpenedBy(ts[t].f)), ts) == 1
    ensures var (c', pc') := Act(c, ts[t], o); FileMeasures(f, c'.fs, ts[t := pc'])
  {
    FileTotals(c, ts, t, o, f);
  }

  lemma RunFilesUsed(s: Sys, t: nat, o: bool, f: File)
    requires Inv(s) && Guard(s, Run(t, o))
    ensures FileMeasures(f, Next(s, Run(t, o)).c.fs, Next(s, Run(t, o)).ts)
  {
    Ready(s, t, o);
    FileTotals(s.c, s.ts, t, o, f);
    assert FileMeasures(f, s.c.fs, s.ts);
    var pc := s.ts[t];
    if pc.OpenDevice? {
      ReadyForFiles(s, t);
      OpenFiles(s.c, s.ts, t, o, f);
    } else if !pc.CleanupMark? {
      FilesKept(s.c, pc, o);
    }
  }

  lemma RunKeeps(s: Sys, t: nat, o: bool)
    requires Inv(s) && Guard(s, Run(t, o))
    ensures Inv(Next(s, Run(t, o)))
  {
    hide Act, Balances, FileMeasures, Exclusive, Working, QuietWrites, Fifo, Drained, EventExact, QuietQueue,
        ControlShape;
    hide Enabled, Prepared, FreedOnce, ThreadsKnow;
    RunBalances(s, t, o);
    RunControl(s, t, o);
    RunQuietWrites(s, t, o);
    RunWork(s, t, o);
    Ready(s, t, o);
    RoutineStored(s.c, s.ts[t], o);
    RunIndications(s, t, o);
    RunReference(s, t, o);
    RunUnborn(s, t, o);
    RunKnows(s, t, o);
    RunExclusive(s, t, o);
    forall f ensures FileMeasures(f, Next(s, Run(t, o)).c.fs, Next(s, Run(t, o)).ts) {
      RunFilesUsed(s, t, o, f);
    }
  }

  // ---- Calls from outside ----------------------------------------------------

  lemma ArriveReads(s: Sys, e: Event, k: ReadKey)
    requires Guard(s, e) && !e.Run? && !e.StartControl?
    ensures var (c', pc) := Arrive(s.c, e);
            ReadPart(k, c'.rd, c'.lock) + ReadW(k, pc) == ReadPart(k, s.c.rd, s.c.lock)
  {
  }

  lemma ArriveSends(s: Sys, e: Event, k: SendKey)
    requires Guard(s, e) && !e.Run? && !e.StartControl?
    ensures var (c', pc) := Arrive(s.c, e); SendPart(k, c'.tx) + SendW(k, pc) == SendPart(k, s.c.tx)
  {
    var (c', pc) := Arrive(s.c, e);
    if e.CompleteSends? {
      RemoveChain(s.c.tx.inNdis, e.chain);
    } else if e.DispatchWrite? {
    } else {
      NoSendsWeight(pc, k);
    }
  }

  lemma ArriveReferences(s: Sys, e: Event)
    requires Guard(s, e) && !e.Run? && !e.StartControl?
    ensures var (c', pc) := Arrive(s.c, e); Part(References, c') + Refs(pc) == Part(References, s.c)
  {
    hide Arrive, Part, Refs;
    if e.CompleteSends? {
      ArriveSent(s.c, e);
    } else {
      ArriveOthers(s.c, e);
    }
  }

  lemma ArriveSent(c: Ctx, e: Event)
    requires e.CompleteSends? && Elements(e.chain) <= c.tx.inNdis && forall w :: Count(e.chain, w) <= 1
    ensures var (c', pc) := Arrive(c, e); Part(References, c') + Refs(pc) == Part(References, c)
  {
    RemoveChain(c.tx.inNdis, e.chain);
  }

  lemma ArriveOthers(c: Ctx, e: Event)
    requires !e.CompleteSends? && !e.Run? && !e.StartControl? && (e.DispatchClose? ==> e.f in c.fs.here)
    ensures var (c', pc) := Arrive(c, e); Part(References, c') + Refs(pc) == Part(References, c)
  {
  }

  lemma ArrivePackets(s: Sys, e: Event, n: Nbl)
    requires Guard(s, e) && !e.Run? && !e.StartControl?
    ensures var (c', pc) := Arrive(s.c, e); Part(OfPacket(n), c') + PacketWeight(pc, n) == Part(OfPacket(n), s.c)
  {
  }

  lemma ArriveLock(s: Sys, e: Event, h: Holder)
    requires Guard(s, e) && !e.Run? && !e.StartControl?
    ensures var (c', pc) := Arrive(s.c, e); Part(LockHeld(h), c') + Ind(HoldsLock(pc, h)) == Part(LockHeld(h), s.c)
  {
  }

  lemma ArriveCleaning(s: Sys, e: Event, f: File)
    requires Guard(s, e) && !e.Run? && !e.StartControl?
    ensures var (c', pc) := Arrive(s.c, e); Part(Cleaning(f), c') + CleanWeight(pc, f) == Part(Cleaning(f), s.c)
  {
  }

  lemma ArriveBalances(s: Sys, e: Event)
    requires Balances(s) && Guard(s, e) && !e.Run? && !e.StartControl?
    ensures Balances(Next(s, e))
  {
    var s' := Next(s, e);
    var (c', pc) := Arrive(s.c, e);
    forall k | IsLaw(k) ensures Part(k, s'.c) + Total(k, s'.ts) == 0 {
      assert Part(k, s.c) + Total(k, s.ts) == 0;
      TotalAppend(k, s.ts, pc);
      match k
      case OfReads(rk) => ArriveReads(s, e, rk);
      case OfSends(sk) => ArriveSends(s, e, sk);
      case References => ArriveReferences(s, e);
      case OfPacket(n) => ArrivePackets(s, e, n);
      case Cleaning(f) => ArriveCleaning(s, e, f);
      case LockHeld(h) => ArriveLock(s, e, h);
    }
  }

  /** What a call from outside leaves alone. */
  lemma ArriveFrame(c: Ctx, e: Event)
    requires !e.Run? && !e.StartControl?
    ensures var (c', pc) := Arrive(c, e);
            && c'.b == c.b && c'.lock == c.lock && c'.refCount == c.refCount && c'.frees == c.frees
            && c'.rd == c.rd.(owner := c'.rd.owner) && c'.rx == c.rx.(next := c'.rx.next)
            && c'.tx == c.tx.(owner := c'.tx.owner, inNdis := c'.tx.inNdis)
            && !IsControl(pc) && ((e.CompleteSends? ==> e.chain != []) ==> WellFormed(pc))
            && (IsIndication(pc) ==> e.Indicate?)
  {
  }

  lemma ArriveFileWeights(c: Ctx, e: Event, f: File)
    requires !e.Run? && !e.StartControl?
    ensures var (c', pc) := Arrive(c, e);
            && OpenedWeight(pc, f) == 0 && OpeningWeight(pc, f) == Ind(e == DispatchOpen(f))
            && CleanupWeight(pc, f) == Ind(e == DispatchCleanup(f))
            && (f in c'.fs.here <==> f in c.fs.here && e != DispatchClose(f))
            && (f in c'.fs.begun <==> f in c.fs.begun || e == DispatchCleanup(f))
  {
  }

  lemma ArriveFiles(s: Sys, e: Event, f: File)
    requires Exclusive(s.c.fs) && FileMeasures(f, s.c.fs, s.ts) && Guard(s, e) && !e.Run? && !e.StartControl?
    ensures FileMeasures(f, Next(s, e).c.fs, Next(s, e).ts)
  {
    hide Arrive, OpenedWeight, OpeningWeight, CleanupWeight, UseWeight;
    var (c', pc) := Arrive(s.c, e);
    ArriveFileWeights(s.c, e, f);
    TotalAppend(Weight(CleanupOf(f)), s.ts, pc);
    TotalAppend(Weight(OpenedBy(f)), s.ts, pc);
    TotalAppend(Weight(OpeningOf(f)), s.ts, pc);
    OpenedIsOpening(s.ts, f);
    CleanupIsUse(s.ts, f);
  }

  lemma OpenedIsOpening(ts: seq<Pc>, f: File)
    ensures Total(Weight(OpenedBy(f)), ts) <= Total(Weight(OpeningOf(f)), ts)
  {
    TotalBelow(Weight(OpenedBy(f)), Weight(OpeningOf(f)), ts);
  }

  lemma CleanupIsUse(ts: seq<Pc>, f: File)
    ensures Total(Weight(CleanupOf(f)), ts) <= Total(Weight(UsesOf(f)), ts)
  {
    TotalBelow(Weight(CleanupOf(f)), Weight(UsesOf(f)), ts);
  }

  lemma ArriveExclusive(s: Sys, e: Event)
    requires Exclusive(s.c.fs) && Guard(s, e) && !e.Run? && !e.StartControl?
    ensures Exclusive(Next(s, e).c.fs)
  {
  }

  lemma ArriveWriter(c: Ctx, e: Event)
    requires !e.Run? && !e.StartControl? && !e.CompleteSends?
    ensures var (c', pc) := Arrive(c, e); c'.tx.inNdis == c.tx.inNdis && WriteWeight(pc) == 0
  {
  }

  lemma ArriveWrites(s: Sys, e: Event)
    requires Guard(s, e) && !e.Run? && !e.StartControl?
    ensures WritesOutstanding(Next(s, e)) == WritesOutstanding(s)
  {
    TotalAppend(Weight(WritesOut), s.ts, Arrive(s.c, e).1);
    if e.CompleteSends? {
      RemoveChain(s.c.tx.inNdis, e.chain);
    } else {
      hide Arrive;
      ArriveWriter(s.c, e);
    }
  }

  lemma ArriveWork(s: Sys, e: Event)
    requires Working(s.c, s.ts) && Guard(s, e) && !e.Run? && !e.StartControl?
    ensures Working(Next(s, e).c, Next(s, e).ts)
  {
    var (c', pc) := Arrive(s.c, e);
    ArriveFrame(s.c, e);
    TotalAppend(Weight(Committed), s.ts, pc);
  }

  /** What the invariant says of the context does not depend on what a call from outside changes. */
  lemma ArriveContext(c: Ctx, e: Event, pc0: Pc)
    requires !e.Run? && !e.StartControl? && IsControl(pc0)
    requires ControlShape(c.b, pc0) && Drained(c, pc0) && EventExact(c, pc0) && QuietQueue(c, pc0) && FreedOnce(c, pc0)
    requires Fifo(c.rx) && c.tx.routine <= c.tx.stored
    ensures var c' := Arrive(c, e).0;
            && ControlShape(c'.b, pc0) && Drained(c', pc0) && EventExact(c', pc0) && QuietQueue(c', pc0)
            && FreedOnce(c', pc0) && Fifo(c'.rx) && c'.tx.routine <= c'.tx.stored
  {
    hide Arrive;
    ArriveFrame(c, e);
  }

  lemma ArriveKeeps(s: Sys, e: Event)
    requires Inv(s) && Guard(s, e) && !e.Run? && !e.StartControl?
    ensures Inv(Next(s, e))
  {
    hide Arrive, Balances, FileMeasures, Exclusive, Working, WritesOutstanding, ControlShape, Drained, EventExact;
    hide QuietQueue, FreedOnce, Fifo, Unborn, Knows;
    var s' := Next(s, e);
    var (c', pc) := Arrive(s.c, e);
    ArriveBalances(s, e);
    ArriveFrame(s.c, e);
    ArriveContext(s.c, e, s.ts[0]);
    ArriveExclusive(s, e);
    ArriveWrites(s, e);
    ArriveWork(s, e);
    forall f ensures FileMeasures(f, s'.c.fs, s'.ts) {
      assert FileMeasures(f, s.c.fs, s.ts);
      ArriveFiles(s, e, f);
    }
    TotalAppend(Weight(Indicating), s.ts, pc);
    ArriveUnborn(s, e);
    ArriveKnows(s, e);
    assert s'.ts[0] == s.ts[0];
  }

  lemma ArriveKnows(s: Sys, e: Event)
    requires ThreadsKnow(s) && Guard(s, e) && !e.Run? && !e.StartControl?
    ensures ThreadsKnow(Next(s, e))
  {
    hide Arrive;
    ArriveFrame(s.c, e);
    ArrivePcKnows(s.c, e);
  }

  lemma ArrivePcKnows(c: Ctx, e: Event)
    requires !e.Run? && !e.StartControl?
    ensures Knows(Arrive(c, e).0, Arrive(c, e).1)
  {
  }

  lemma ArriveUnborn(s: Sys, e: Event)
    requires Inv(s) && Guard(s, e) && !e.Run? && !e.StartControl?
    ensures Unborn(s.ts[0]) ==> Total(Weight(Dispatched), Next(s, e).ts) == 0
  {
    hide FilesUsed, Working, Exclusive, QuietWrites, EventExact, QuietQueue, Fifo, Drained, ControlShape, ThreadsKnow;
    TotalAppend(Weight(Dispatched), s.ts, Arrive(s.c, e).1);
    if Unborn(s.ts[0]) {
      Ledger(s, 0);
    }
  }

  lemma IdleWeight(ctl: ControlPc, k: Key)
    requires ctl.New? || ctl.Bound? || ctl == Bind(BindRef) || ctl == Unbind(UnbindMark) || ctl.Event?
    ensures W(k, Control(ctl)) == 0
  {
    match k
    case OfReads(rk) => NoReadsWeight(Control(ctl), rk);
    case OfSends(sk) => NoSendsWeight(Control(ctl), sk);
    case _ =>
  }

  lemma StartTotals(s: Sys, ctl: ControlPc)
    requires s.ts != [] && s.ts[0].Control? && (s.ts[0].ctl.New? || s.ts[0].ctl.Bound?)
    requires ctl == Bind(BindRef) || ctl == Unbind(UnbindMark) || ctl.Event?
    ensures forall k :: Total(k, s.ts[0 := Control(ctl)]) == Total(k, s.ts)
  {
    forall k ensures Total(k, s.ts[0 := Control(ctl)]) == Total(k, s.ts) {
      TotalUpdate(k, s.ts, 0, Control(ctl));
      IdleWeight(s.ts[0].ctl, k);
      IdleWeight(ctl, k);
    }
  }

  /** The first pc of a handler asserts nothing that the idle control thread did not. */
  lemma StartShape(c: Ctx, pc: Pc, ctl: ControlPc)
    requires MayStart(c, pc, ctl)
    requires ControlShape(c.b, pc) && Drained(c, pc) && EventExact(c, pc) && QuietQueue(c, pc) && FreedOnce(c, pc)
    ensures var pc' := Control(ctl);
            && ControlShape(c.b, pc') && Drained(c, pc') && EventExact(c, pc') && QuietQueue(c, pc')
            && FreedOnce(c, pc') && !PauseWaited(pc') && (Unborn(pc') <==> Unborn(pc))
  {
  }

  lemma StartKeeps(s: Sys, ctl: ControlPc)
    requires Inv(s) && Guard(s, StartControl(ctl))
    ensures Inv(Next(s, StartControl(ctl)))
  {
    hide ControlShape, Drained, EventExact, QuietQueue, FreedOnce, Exclusive, Fifo, Unborn;
    var s' := Next(s, StartControl(ctl));
    StartTotals(s, ctl);
    StartShape(s.c, s.ts[0], ctl);
    forall f ensures FileMeasures(f, s'.c.fs, s'.ts) {
      assert FileMeasures(f, s.c.fs, s.ts);
    }
  }

  /** Every step keeps the invariant. */
  lemma StepKeeps(s: Sys, e: Event)
    requires Inv(s) && Guard(s, e)
    ensures Inv(Next(s, e))
  {
    hide Inv, Next;
    match e
    case Run(t, o) => RunKeeps(s, t, o);
    case StartControl(ctl) => StartKeeps(s, ctl);
    case _ => ArriveKeeps(s, e);
  }

  lemma {:induction false} RunInvariant(a: Origin, es: seq<Event>, ss: seq<Sys>, i: nat)
    requires IsRun(a, es, ss) && Inv(a.s) && i < |ss|
    ensures Inv(ss[i])
  {
    hide Inv, Guard, Next;
    if i > 0 {
      RunInvariant(a, es, ss, i - 1);
      assert StepAt(a, es, ss, i - 1);
      StepKeeps(ss[i - 1], es[i - 1]);
    }
  }

  /** The invariant holds in every reachable state. */
  lemma ReachableInv(s: Sys)
    requires Reachable(s)
    ensures Inv(s)
  {
    hide Inv;
    var es: seq<Event>, ss: seq<Sys> :| IsRun(Beginning(), es, ss) && ss[|es|] == s;
    InvInitially();
    RunInvariant(Beginning(), es, ss, |es|);
  }
}
