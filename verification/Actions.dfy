/** What single actions do to the parts of the context that no conservation law
    covers: the binding, the drain conditions, the queue, the file objects. */
module Actions {
  import opened Wrappers
  import opened Lists
  import opened Protocol
  import opened Laws
  import opened Runs
  import opened Invariant

  /** ndisprotQueueReceiveNetBufferList accepts packets: in the Paused state only one that stands
      between its two loads of the state. */
  predicate Admits(c: Ctx) {
    c.b.bind == BindActive && c.b.d0 && c.b.state != Pausing && (c.b.state == Paused ==> Between(c))
  }

  /** An action of a thread other than the control thread. It leaves the binding
      alone, lets nothing in unless the binding is active, and keeps the queue a
      bounded FIFO. */
  predicate Gentle(c: Ctx, c': Ctx) {
    && c'.b == c.b
    && (LockedByRead(c') ==> c'.lock == c.lock || c.b.bind == BindActive)
    && (!LockedByRead(c) && c.b.bind != BindActive ==> c'.rd.count <= c.rd.count)
    && (c.b.bind != BindActive ==> c'.tx.count <= c.tx.count)
    && (c.rx.queue == [] && !Admits(c) ==> c'.rx.queue == [])
    && (c.b.state == Paused ==> Slipping(c') <= Slipping(c))
    && (Fifo(c.rx) ==> Fifo(c'.rx))
  }

  /** The closing event follows the count. */
  predicate Signals(c: Ctx, c': Ctx) {
    || c'.tx == c.tx.(pended := c'.tx.pended, routine := c'.tx.routine, stored := c'.tx.stored, inNdis := c'.tx.inNdis,
                      nblFreed := c'.tx.nblFreed, bySendComplete := c'.tx.bySendComplete,
                      byDispatch := c'.tx.byDispatch)
    || c' == Uncount(c)
    || (c.b.bind == BindActive && c'.tx.closingEvent == c.tx.closingEvent && c'.tx.signalled == c.tx.signalled)
  }

  lemma TakeGentle(c: Ctx, k: ServiceCaller)
    ensures var (c', pc') := ServiceTest(c, k); Gentle(c, c') && c'.tx == c.tx && c'.fs == c.fs
  {
    if c.rx.queue != [] && HasClaimable(c.rd) {
      assert c.rx.left + c.rx.queue == (c.rx.left + [c.rx.queue[0]]) + c.rx.queue[1..];
    }
  }

  lemma ServiceGentle(c: Ctx, k: ServiceCaller, v: ServicePc)
    ensures var (c', pc') := ActService(c, k, v);
            Gentle(c, c') && c'.tx == c.tx && c'.fs == c.fs && !IsControl(pc') && WellFormed(pc')
  {
    hide ServiceTest, Balanced;
    TakeRest(c, k, 0);
    TakeRest(c.(rd := c.rd.(count := c.rd.count - 1)), k, 0);
    TakeGentle(c, k);
    TakeGentle(c.(rd := c.rd.(count := c.rd.count - 1)), k);
  }

  lemma ReadGentle(c: Ctx, x: Irp, f: File, r: ReadPc)
    requires ReadPrepared(c, x, r)
    ensures var (c', pc') := ActRead(c, x, f, r);
            Gentle(c, c') && c'.tx == c.tx && c'.fs == c.fs && !IsControl(pc') && WellFormed(pc')
  {
  }

  lemma CancelReadGentle(c: Ctx, x: Irp, cr: CancelReadPc)
    ensures var (c', pc') := ActCancelRead(c, x, cr);
            Gentle(c, c') && c'.tx == c.tx && c'.fs == c.fs && !IsControl(pc') && WellFormed(pc')
  {
  }

  lemma PurgeGentle(c: Ctx, k: PurgeCaller, p: PurgePc)
    ensures var (c', pc') := ActPurge(c, k, p);
            && Gentle(c, c') && c'.tx == c.tx && c'.fs == c.fs && WellFormed(pc') && c'.rd.count <= c.rd.count
            && c'.rx == c.rx && c'.lock == c.lock
            && (IsControl(pc') <==> k.FromShutdown?)
            && (k.FromShutdown? ==> (pc'.Purge? && pc'.pk.FromShutdown?) || pc' == Control(Drain(ShutReads)))
  {
  }

  lemma FlushGentle(c: Ctx, k: FlushCaller, fl: FlushPc)
    ensures var (c', pc') := ActFlush(c, k, fl);
            && Gentle(c, c') && c'.tx == c.tx && c'.fs == c.fs && WellFormed(pc') && c'.rd == c.rd
            && c'.lock == c.lock
            && (IsControl(pc') <==> !k.AtCleanup?)
            && (fl.FlushExit? ==> pc' == AfterFlush(k))
            && (!fl.FlushExit? ==> pc'.Flush? && pc'.fk == k)
            && (pc'.Flush? && pc'.fl.FlushExit? ==> c'.rx.queue == [])
            && (fl.FlushExit? ==> c'.rx == c.rx)
  {
    if c.rx.queue != [] {
      assert c.rx.left + c.rx.queue == (c.rx.left + [c.rx.queue[0]]) + c.rx.queue[1..];
    }
  }

  lemma QueueGentle(c: Ctx, n: Nbl)
    requires Between(c)
    ensures var (c', pc') := QueueSection(c.(lock := None), n); Gentle(c, c')
  {
    var q := Enqueue(c.rx, n);
    if Fifo(c.rx) {
      assert q.entered == q.left + q.queue;
      assert q.left + q.queue == (q.left + [q.queue[0]]) + q.queue[1..];
    }
  }

  lemma ReceiveGentle(c: Ctx, n: Nbl, q: ReceivePc)
    requires ReceivePrepared(c, n, q)
    ensures var (c', pc') := ActReceive(c, n, q);
            && Gentle(c, c') && c'.tx == c.tx && c'.fs == c.fs && c'.rd == c.rd && !IsControl(pc')
            && WellFormed(pc')
  {
    hide QueueSection;
    if q.QueueAgain? {
      QueueGentle(c, n);
      QueueFrame(c, n);
    }
  }

  lemma QueueFrame(c: Ctx, n: Nbl)
    ensures var (c', pc') := QueueSection(c.(lock := None), n);
            && c'.tx == c.tx && c'.fs == c.fs && c'.rd == c.rd && !IsControl(pc') && WellFormed(pc')
  {
  }

  lemma WriteGentle(c: Ctx, w: Irp, f: File, wp: WritePc, o: bool)
    ensures var (c', pc') := ActWrite(c, w, f, wp, o);
            && Gentle(c, c') && Signals(c, c') && c'.fs == c.fs && c'.rd == c.rd && c'.rx == c.rx
            && !IsControl(pc') && WellFormed(pc')
  {
  }

  lemma SentGentle(c: Ctx, ch: seq<Irp>, sp: SentPc)
    requires ch != []
    ensures var (c', pc') := ActSent(c, ch, sp);
            && Gentle(c, c') && Signals(c, c') && c'.fs == c.fs && c'.rd == c.rd && c'.rx == c.rx
            && !IsControl(pc') && WellFormed(pc')
  {
  }

  lemma RestGentle(c: Ctx, pc: Pc, o: bool)
    requires IsRest(pc)
    ensures var (c', pc') := Act(c, pc, o);
            && Gentle(c, c') && Signals(c, c') && c'.rd == c.rd && c'.rx == c.rx
            && !IsControl(pc') && WellFormed(pc')
  {
    hide Gentle, Signals;
    match pc
    case Request(k, rp) => RequestGentle(c, k, rp, o);
    case OpenDevice(f, op) => OpenGentle(c, f, op, o);
    case _ => OtherGentle(c, pc, o);
  }

  lemma RequestGentle(c: Ctx, k: RequestCaller, rp: RequestPc, o: bool)
    ensures var (c', pc') := ActRequest(c, k, rp, o);
            && Gentle(c, c') && Signals(c, c') && c'.rd == c.rd && c'.rx == c.rx
            && !IsControl(pc') && WellFormed(pc')
  {
  }

  lemma OpenGentle(c: Ctx, f: File, op: OpenPc, o: bool)
    ensures var (c', pc') := ActOpen(c, f, op, o);
            && Gentle(c, c') && Signals(c, c') && c'.rd == c.rd && c'.rx == c.rx
            && !IsControl(pc') && WellFormed(pc')
  {
  }

  lemma OtherGentle(c: Ctx, pc: Pc, o: bool)
    requires IsRest(pc) && !pc.Request? && !pc.OpenDevice?
    ensures var (c', pc') := Act(c, pc, o);
            && Gentle(c, c') && Signals(c, c') && c'.rd == c.rd && c'.rx == c.rx
            && !IsControl(pc') && WellFormed(pc')
  {
  }

  /** Every action of a thread that NDIS does not serialise is gentle. */
  lemma OthersGentle(c: Ctx, pc: Pc, o: bool)
    requires WellFormed(pc) && Prepared(c, pc) && !IsControl(pc)
    ensures var (c', pc') := Act(c, pc, o);
            Gentle(c, c') && Signals(c, c') && !IsControl(pc') && WellFormed(pc')
  {
    match pc
    case Read(x, f, r) => ReadGentle(c, x, f, r);
    case Service(q, v) => ServiceGentle(c, q, v);
    case CancelRead(x, cr) => CancelReadGentle(c, x, cr);
    case Purge(q, p) => PurgeGentle(c, q, p);
    case Flush(q, fl) => FlushGentle(c, q, fl);
    case Receive(m, q) => ReceiveGentle(c, m, q);
    case Write(w, f, wp) => WriteGentle(c, w, f, wp, o);
    case Sent(ch, sp) => SentGentle(c, ch, sp);
    case _ => RestGentle(c, pc, o);
  }

  // ---- File objects and other measures --------------------------------------

  /** The thread does not begin to use a file object, and holds an open only by associating it. */
  predicate Falls(pc: Pc, pc': Pc, f: File) {
    && UseWeight(pc', f) <= UseWeight(pc, f)
    && OpeningWeight(pc', f) <= OpeningWeight(pc, f)
    && (OpenedWeight(pc', f) > OpenedWeight(pc, f) ==> pc == OpenDevice(f, Associate))
    && (IsIndication(pc') ==> IsIndication(pc))
    && (IsDispatched(pc') ==> IsDispatched(pc))
    && CleanupWeight(pc', f) <= CleanupWeight(pc, f)
  }

  /** No action makes a thread use a file object that it did not use before, and
      only a successful association makes one hold an open. */
  lemma MeasuresFall(c: Ctx, pc: Pc, o: bool, f: File)
    requires WellFormed(pc)
    ensures Falls(pc, Act(c, pc, o).1, f)
  {
    hide Falls, ActService, ActControl, ActOpen, ActRequest, ActPurge, ActFlush, ActReceive, ActRead, ActWrite, ActSent;
    hide ActCancelRead, ActCancelWrite, ActCleanupMark;
    match pc
    case Read(x, g, r) => ReadFalls(c, x, g, r, f);
    case Service(k, v) => ServiceFalls(c, k, v, f);
    case CancelRead(x, cr) => CancelReadFalls(c, x, cr, f);
    case Purge(k, p) => PurgeFalls(c, k, p, f);
    case Flush(k, fl) => FlushFalls(c, k, fl, f);
    case Receive(n, q) => ReceiveFalls(c, n, q, f);
    case Write(w, g, wp) => WriteFalls(c, w, g, wp, o, f);
    case Sent(ch, sp) => SentFalls(c, ch, sp, f);
    case CancelWrite(w, cw) => CancelWriteFalls(c, w, cw, f);
    case Request(k, rp) => RequestFalls(c, k, rp, o, f);
    case OpenDevice(g, op) => OpenFalls(c, g, op, o, f);
    case CleanupMark(g) => CleanupFalls(c, g, f);
    case Control(ctl) => ControlFalls(c, ctl, o, f);
    case Done => DoneFalls(Done, f);
    case CloseDrop => DoneFalls(CloseDrop, f);
  }

  lemma DoneFalls(pc: Pc, f: File)
    ensures Falls(pc, Done, f)
  {
  }

  lemma ReadFalls(c: Ctx, x: Irp, g: File, r: ReadPc, f: File)
    ensures Falls(Read(x, g, r), ActRead(c, x, g, r).1, f)
  {
  }

  lemma ServiceFalls(c: Ctx, k: ServiceCaller, v: ServicePc, f: File)
    ensures Falls(Service(k, v), ActService(c, k, v).1, f)
  {
    hide ServiceTest, Balanced;
    TakeRest(c, k, 0);
    TakeRest(c.(rd := c.rd.(count := c.rd.count - 1)), k, 0);
  }

  lemma CancelReadFalls(c: Ctx, x: Irp, cr: CancelReadPc, f: File)
    ensures Falls(CancelRead(x, cr), ActCancelRead(c, x, cr).1, f)
  {
  }

  lemma FlushFalls(c: Ctx, k: FlushCaller, fl: FlushPc, f: File)
    ensures Falls(Flush(k, fl), ActFlush(c, k, fl).1, f)
  {
  }

  lemma PurgeFalls(c: Ctx, k: PurgeCaller, p: PurgePc, f: File)
    ensures Falls(Purge(k, p), ActPurge(c, k, p).1, f)
  {
  }

  lemma ReceiveFalls(c: Ctx, n: Nbl, q: ReceivePc, f: File)
    ensures Falls(Receive(n, q), ActReceive(c, n, q).1, f)
  {
  }

  lemma WriteFalls(c: Ctx, w: Irp, g: File, wp: WritePc, o: bool, f: File)
    ensures Falls(Write(w, g, wp), ActWrite(c, w, g, wp, o).1, f)
  {
  }

  lemma SentFalls(c: Ctx, ch: seq<Irp>, sp: SentPc, f: File)
    requires ch != []
    ensures Falls(Sent(ch, sp), ActSent(c, ch, sp).1, f)
  {
  }

  lemma CancelWriteFalls(c: Ctx, w: Irp, cw: CancelWritePc, f: File)
    ensures Falls(CancelWrite(w, cw), ActCancelWrite(c, w, cw).1, f)
  {
  }

  lemma RequestFalls(c: Ctx, k: RequestCaller, rp: RequestPc, o: bool, f: File)
    ensures Falls(Request(k, rp), ActRequest(c, k, rp, o).1, f)
  {
  }

  lemma OpenFalls(c: Ctx, g: File, op: OpenPc, o: bool, f: File)
    ensures Falls(OpenDevice(g, op), ActOpen(c, g, op, o).1, f)
  {
  }

  lemma CleanupFalls(c: Ctx, g: File, f: File)
    ensures Falls(CleanupMark(g), ActCleanupMark(c, g).1, f)
  {
  }

  lemma ControlFalls(c: Ctx, ctl: ControlPc, o: bool, f: File)
    ensures Falls(Control(ctl), ActControl(c, ctl, o).1, f)
  {
  }

  predicate TouchesFiles(pc: Pc) {
    pc.OpenDevice? || pc.CleanupMark?
  }

  lemma FilesKept(c: Ctx, pc: Pc, o: bool)
    requires WellFormed(pc) && Prepared(c, pc) && !TouchesFiles(pc)
    ensures Act(c, pc, o).0.fs == c.fs
  {
    match pc
    case Read(x, f, r) => ReadGentle(c, x, f, r);
    case Service(q, v) => ServiceGentle(c, q, v);
    case CancelRead(x, cr) => CancelReadGentle(c, x, cr);
    case Purge(q, p) => PurgeGentle(c, q, p);
    case Flush(q, fl) => FlushGentle(c, q, fl);
    case Receive(m, q) => ReceiveGentle(c, m, q);
    case Write(w, f, wp) => WriteGentle(c, w, f, wp, o);
    case Sent(ch, sp) => SentGentle(c, ch, sp);
    case Control(ctl) => ControlStep(c, ctl, o);
    case _ =>
  }

  // ---- Work -------------------------------------------------------------------

  /** Taking IRPs off the list or routines out of IRPs makes nothing claimable. */
  lemma LessClaimable(rd: Reads, rd': Reads)
    requires forall x :: x in rd'.pended ==> x in rd.pended
    requires forall x :: x in rd'.pended && x in rd'.routine ==> x in rd.routine
    ensures HasClaimable(rd') ==> HasClaimable(rd)
  {
    Claimable(rd);
    Claimable(rd');
  }

  predicate Pending(c: Ctx) {
    c.rx.queue != [] && HasClaimable(c.rd)
  }

  /** After an action either nothing waits, or this thread is committed, or it waited
      already and this thread was not the one to serve it. */
  predicate WorkKept(c: Ctx, pc: Pc, c': Ctx, pc': Pc) {
    Pending(c') ==> IsCommitted(pc') || (Pending(c) && !IsCommitted(pc))
  }

  lemma ReadWork(c: Ctx, x: Irp, f: File, r: ReadPc)
    requires r.Enter? ==> x !in c.rd.pended
    ensures var (c', pc') := ActRead(c, x, f, r); WorkKept(c, Read(x, f, r), c', pc')
  {
    var (c', pc') := ActRead(c, x, f, r);
    if !r.List? {
      LessClaimable(c.rd, c'.rd);
    }
  }

  lemma CancelReadWork(c: Ctx, x: Irp, cr: CancelReadPc)
    requires cr.Unlink? ==> x in c.rd.pended
    ensures var (c', pc') := ActCancelRead(c, x, cr); WorkKept(c, CancelRead(x, cr), c', pc')
  {
    var (c', pc') := ActCancelRead(c, x, cr);
    if cr.Unlink? {
      CountRemove(c.rd.pended, x);
    }
    LessClaimable(c.rd, c'.rd);
  }

  lemma PurgeWork(c: Ctx, k: PurgeCaller, p: PurgePc)
    ensures var (c', pc') := ActPurge(c, k, p); WorkKept(c, Purge(k, p), c', pc')
  {
    var (c', pc') := ActPurge(c, k, p);
    if c.rd.pended != [] {
      CountRemove(c.rd.pended, c.rd.pended[0]);
    }
    LessClaimable(c.rd, c'.rd);
  }

  lemma ServiceWork(c: Ctx, k: ServiceCaller, v: ServicePc)
    ensures var (c', pc') := ActService(c, k, v); WorkKept(c, Service(k, v), c', pc')
  {
  }

  lemma WorkStep(c: Ctx, pc: Pc, o: bool)
    requires WellFormed(pc) && Prepared(c, pc)
    requires pc.Read? && pc.r.Enter? ==> pc.x !in c.rd.pended
    ensures WorkKept(c, pc, Act(c, pc, o).0, Act(c, pc, o).1)
  {
    match pc
    case Read(x, f, r) => ReadWork(c, x, f, r);
    case Service(q, v) => ServiceWork(c, q, v);
    case CancelRead(x, cr) => CancelReadWork(c, x, cr);
    case Purge(q, p) => PurgeWork(c, q, p);
    case Flush(q, fl) => FlushGentle(c, q, fl);
    case Write(w, f, wp) => WriteGentle(c, w, f, wp, o);
    case Sent(ch, sp) => SentGentle(c, ch, sp);
    case Control(ctl) => ControlStep(c, ctl, o);
    case Receive(m, q) =>
    case _ => RestGentle(c, pc, o);
  }

  // ---- References ----------------------------------------------------------------

  /** The action accesses the memory of the open context. */
  predicate Touches(c: Ctx, pc: Pc) {
    match pc
    case Done => false
    case Read(_, _, r) => r.Enter? || r.Test? || r.List?
    case CancelRead(_, cr) => cr.Unlink? || cr.CancelComplete? || cr.CancelDrop?
    case Write(_, _, wp) => !wp.WriteFail?
    case CancelWrite(w, cw) => cw.TakeWriteRoutine? ==> w in c.tx.routine && w in c.tx.stored
    case OpenDevice(_, op) => op.Lookup? ==> c.b.listed
    case Control(ctl) => !ctl.New? && !ctl.Bound? && !ctl.Gone?
    case _ => true
  }

  /** The reference count moves by one at most, the free happens at the step to zero. */
  predicate CountsReference(c: Ctx, pc: Pc, c': Ctx) {
    || (c'.refCount == c.refCount && c'.frees == c.frees)
    || (c'.refCount == c.refCount + 1 && c'.frees == c.frees && Touches(c, pc))
    || (c'.refCount == c.refCount - 1 && c'.frees == c.frees + Ind(c.refCount == 1) && Touches(c, pc))
  }

  lemma ServiceReference(c: Ctx, k: ServiceCaller, v: ServicePc)
    ensures CountsReference(c, Service(k, v), ActService(c, k, v).0)
  {
    TakeRest(c, k, 0);
    TakeRest(c.(rd := c.rd.(count := c.rd.count - 1)), k, 0);
  }

  lemma ControlReference(c: Ctx, ctl: ControlPc, o: bool)
    ensures CountsReference(c, Control(ctl), ActControl(c, ctl, o).0)
  {
  }

  lemma ReferenceStep(c: Ctx, pc: Pc, o: bool)
    requires WellFormed(pc)
    ensures CountsReference(c, pc, Act(c, pc, o).0)
  {
    match pc
    case Service(k, v) => ServiceReference(c, k, v);
    case Control(ctl) => ControlReference(c, ctl, o);
    case _ =>
  }

  // ---- Histories -------------------------------------------------------------------

  predicate ReadsGrow(rd: Reads, rd': Reads) {
    rd.stored <= rd'.stored && rd.served <= rd'.served && rd.byCancel <= rd'.byCancel && rd.byPurge <= rd'.byPurge
        && rd.byDispatch <= rd'.byDispatch
  }

  predicate PacketsGrow(rx: Packets, rx': Packets) {
    rx.entered <= rx'.entered && rx.left <= rx'.left && rx.returned <= rx'.returned
  }

  predicate SendsGrow(tx: Sends, tx': Sends) {
    tx.went <= tx'.went && tx.nblFreed <= tx'.nblFreed && tx.bySendComplete <= tx'.bySendComplete
        && tx.byDispatch <= tx'.byDispatch
  }

  /** What has been completed, queued, removed, given back or freed stays so. */
  predicate Grows(c: Ctx, c': Ctx) {
    ReadsGrow(c.rd, c'.rd) && PacketsGrow(c.rx, c'.rx) && SendsGrow(c.tx, c'.tx)
  }

  lemma ReadGrows(c: Ctx, x: Irp, f: File, r: ReadPc)
    ensures Grows(c, ActRead(c, x, f, r).0)
  {
  }

  lemma TakeGrows(c: Ctx, k: ServiceCaller)
    ensures Grows(c, ServiceTest(c, k).0)
  {
  }

  lemma ServiceGrows(c: Ctx, k: ServiceCaller, v: ServicePc)
    ensures Grows(c, ActService(c, k, v).0)
  {
    hide ServiceTest;
    TakeGrows(c, k);
    TakeGrows(c.(rd := c.rd.(count := c.rd.count - 1)), k);
  }

  lemma CancelReadGrows(c: Ctx, x: Irp, cr: CancelReadPc)
    ensures Grows(c, ActCancelRead(c, x, cr).0)
  {
  }

  lemma PurgeGrows(c: Ctx, k: PurgeCaller, p: PurgePc)
    ensures Grows(c, ActPurge(c, k, p).0)
  {
  }

  lemma FlushGrows(c: Ctx, k: FlushCaller, fl: FlushPc)
    ensures Grows(c, ActFlush(c, k, fl).0)
  {
  }

  lemma ReceiveGrows(c: Ctx, n: Nbl, q: ReceivePc)
    ensures Grows(c, ActReceive(c, n, q).0)
  {
  }

  lemma WriteGrows(c: Ctx, w: Irp, f: File, wp: WritePc, o: bool)
    ensures Grows(c, ActWrite(c, w, f, wp, o).0)
  {
  }

  lemma SentGrows(c: Ctx, ch: seq<Irp>, sp: SentPc)
    requires ch != []
    ensures Grows(c, ActSent(c, ch, sp).0)
  {
  }

  lemma RestGrows(c: Ctx, pc: Pc, o: bool)
    requires IsRest(pc)
    ensures Grows(c, Act(c, pc, o).0)
  {
  }

  /** No action takes anything out of a history. */
  lemma HistoriesGrow(c: Ctx, pc: Pc, o: bool)
    requires WellFormed(pc) && Prepared(c, pc)
    ensures Grows(c, Act(c, pc, o).0)
  {
    hide Grows, ActRead, ActService, ActCancelRead, ActPurge, ActFlush, ActReceive, ActWrite, ActSent;
    match pc
    case Read(x, f, r) => ReadGrows(c, x, f, r);
    case Service(q, v) => ServiceGrows(c, q, v);
    case CancelRead(x, cr) => CancelReadGrows(c, x, cr);
    case Purge(q, p) => PurgeGrows(c, q, p);
    case Flush(q, fl) => FlushGrows(c, q, fl);
    case Receive(n, q) => ReceiveGrows(c, n, q);
    case Write(w, f, wp) => WriteGrows(c, w, f, wp, o);
    case Sent(ch, sp) => SentGrows(c, ch, sp);
    case Control(ctl) => ControlGrows(c, ctl, o);
    case _ => RestGrows(c, pc, o);
  }

  lemma ControlGrows(c: Ctx, ctl: ControlPc, o: bool)
    requires ControlPrepared(c.b, ctl)
    ensures Grows(c, ActControl(c, ctl, o).0)
  {
    hide ActControl;
    ControlStep(c, ctl, o);
  }
}
