/** Conservation laws of the protocol.

    Every law weighs the program counters of the threads and balances the sum
    against a quantity read off the shared context: references, in-flight reads
    and sends, and for one IRP, one packet, one lock holder or one file object
    the number of places where it is. Conserve says that one action of one
    thread keeps all fourteen balances at once. */
module Laws {
  import opened Wrappers
  import opened Lists
  import opened Protocol

  datatype ReadKey = InFlight | At(x: Irp) | Listed(x: Irp) | Claimed(x: Irp)
  datatype SendKey =
    | Counted | WriteAt(w: Irp) | WentAt(w: Irp) | LinkedAt(w: Irp) | StoredAt(w: Irp) | SendNblAt(w: Irp)
  datatype Measure =
    | UsesOf(f: File) | CleanupOf(f: File) | OpenedBy(f: File) | OpeningOf(f: File)
    | Dispatched | Indicating | Committed | WritesOut | RequestsOut

  /** The laws, and other weights that are only summed up. */
  datatype Key =
    | References
    | OfReads(rk: ReadKey)
    | OfPacket(n: Nbl)
    | OfSends(sk: SendKey)
    | Cleaning(f: File)
    | LockHeld(h: Holder)
    | Weight(m: Measure)

  predicate IsLaw(k: Key) {
    !k.Weight?
  }

  function ReadPart(k: ReadKey, rd: Reads, lock: Option<Holder>): int {
    match k
    case InFlight => |rd.pended| - rd.count
    case At(x) =>
      Count(rd.pended, x) + Count(rd.served, x) + Count(rd.byCancel, x) + Count(rd.byPurge, x)
      + Count(rd.byDispatch, x) - Ind(x < |rd.owner|)
    case Listed(x) =>
      Count(rd.pended, x) + Count(rd.served, x) + Count(rd.byCancel, x) + Count(rd.byPurge, x)
      - Ind(x in rd.stored)
    case Claimed(x) => Ind(x in rd.routine) - Count(rd.pended, x) - Ind(lock == Some(ByRead(x)))
  }

  function SendPart(k: SendKey, tx: Sends): int {
    match k
    case Counted => |tx.inNdis| - tx.count
    case WriteAt(w) => Ind(w in tx.inNdis) + Count(tx.bySendComplete, w) + Count(tx.byDispatch, w) - Ind(w < |tx.owner|)
    case WentAt(w) => Ind(w in tx.inNdis) + Count(tx.bySendComplete, w) - Ind(w in tx.went)
    case LinkedAt(w) => Ind(w in tx.inNdis) - Count(tx.pended, w)
    case StoredAt(w) => Ind(w in tx.inNdis) - Ind(w in tx.stored)
    case SendNblAt(w) => Ind(w in tx.inNdis) + Count(tx.nblFreed, w) - Ind(w in tx.went)
  }

  /** The part of a law that the context itself holds. */
  function Part(k: Key, c: Ctx): int {
    match k
    case References =>
      Ind(c.b.bound) + |c.fs.here| + |c.rd.pended| + |c.rx.queue| + |c.tx.inNdis| + c.leaked - c.refCount
    case OfReads(rk) => ReadPart(rk, c.rd, c.lock)
    case OfPacket(n) => Count(c.rx.queue, n) + Count(c.rx.returned, n) - Ind(n < c.rx.next)
    case OfSends(sk) => SendPart(sk, c.tx)
    case Cleaning(f) => 0 - Ind(f in c.fs.begun && f !in c.fs.cleaned)
    case LockHeld(h) => 0 - Ind(c.lock == Some(h))
    case Weight(_) => 0
  }

  // ---- Weights of program counters ---------------------------------------

  /** References to the open context that a thread has to give back. */
  function Refs(pc: Pc): nat {
    match pc
    case Service(_, v) =>
      (match v
       case ServeRef => 0
       case ServeDropNbl(_, _) => 3
       case ServeComplete(_, _) => 2
       case ServeFree(_) => 2
       case ServeDropRead => 2
       case _ => 1)
    case CancelRead(_, cr) => Ind(cr.CancelComplete? || cr.CancelDrop?)
    case Purge(_, p) => if p.PurgeRef? then 0 else if p.PurgeComplete? || p.PurgeDrop? then 2 else 1
    case Flush(_, fl) => if fl.FlushRef? then 0 else if fl.FlushFree? || fl.FlushDrop? then 2 else 1
    case Receive(_, q) => Ind(!q.LookPausing? && !q.LookPaused? && !q.QueueRef? && !q.GiveUp?)
    case Write(_, _, wp) => Ind(wp.WriteSend?)
    case Sent(ch, _) => |ch|
    case CancelWrite(_, cw) => Ind(!cw.TakeWriteRoutine?)
    case OpenDevice(_, op) => Ind(op.Associate? || op.OpenDrop?)
    case CloseDrop => 1
    case Control(ctl) => Ind(HoldsBindRef(ctl))
    case _ => 0
  }

  /** The extra reference of NdisprotBindAdapter, held until ndisprotCreateBinding has returned. */
  predicate HoldsBindRef(ctl: ControlPc) {
    match ctl
    case Bind(bp) => !bp.BindRef? && !bp.BindList? && !bp.BindHold?
    case Resource(_) => true
    case Unbind(up) => up.ShutLock? && up.failed
    case Release(_, failed) => failed
    case _ => false
  }

  /** The net buffer lists of a completed chain that are still ahead of the stage given by passed. */
  function Ahead(ch: seq<Irp>, w: Irp, passed: bool): nat {
    if ch == [] then 0 else if passed then Count(ch[1..], w) else Count(ch, w)
  }

  function ReadWeight(pc: Pc): nat {
    match pc
    case Service(_, v) =>
      Ind(v.ServeDropNbl? || v.ServeComplete? || v.ServeFree? || v.ServeDropRead? || v.ServeDecrement?)
    case Purge(_, p) => Ind(p.PurgeComplete? || p.PurgeDrop? || p.PurgeDecrement?)
    case _ => 0
  }

  function WriteWeight(pc: Pc): nat {
    match pc
    case Write(_, _, wp) => Ind(wp.WriteSend?)
    case Sent(ch, sp) => if sp.SentDrop? && ch != [] then |ch| - 1 else |ch|
    case _ => 0
  }

  function SendWeight(pc: Pc): nat {
    match pc
    case Request(_, rp) => Ind(!rp.RequestEnter?)
    case _ => WriteWeight(pc)
  }

  /** The reads a thread has taken off the list and has to complete. */
  function PendedWeight(pc: Pc, x: Irp): nat {
    match pc
    case Service(_, v) =>
      (match v
       case ServeDropNbl(y, _) => Ind(x == y)
       case ServeComplete(y, _) => Ind(x == y)
       case _ => 0)
    case CancelRead(y, cr) => Ind(x == y && cr.CancelComplete?)
    case Purge(_, p) => (match p case PurgeComplete(y) => Ind(x == y) case _ => 0)
    case _ => 0
  }

  /** The read that a dispatch thread has to list or to fail. */
  function DispatchWeight(pc: Pc, x: Irp): nat {
    match pc
    case Read(y, _, _) => Ind(x == y)
    case Service(FromCancelledRead(y, _), _) => Ind(x == y)
    case _ => 0
  }

  function PacketWeight(pc: Pc, n: Nbl): nat {
    match pc
    case Service(_, v) =>
      (match v
       case ServeDropNbl(_, m) => Ind(n == m)
       case ServeComplete(_, m) => Ind(n == m)
       case ServeFree(m) => Ind(n == m)
       case _ => 0)
    case Flush(_, fl) => (match fl case FlushFree(m) => Ind(n == m) case _ => 0)
    case Receive(m, q) => Ind(n == m && !q.DropDeref? && !q.TrimDeref?)
    case _ => 0
  }

  function DispatchWriteWeight(pc: Pc, w: Irp): nat {
    match pc
    case Write(v, _, wp) => Ind(w == v && !wp.WriteSend?)
    case _ => 0
  }

  /** How far SendComplete has come with the head of its chain. */
  function Stage(sp: SentPc): nat {
    match sp
    case ClearCancel => 0
    case UnlinkWrite => 1
    case FreeSendNbl => 2
    case SentComplete => 3
    case SentDecrement => 4
    case SentDrop => 5
  }

  /** Occurrences of a write between its send and a stage of its completion. */
  function SentWeight(pc: Pc, w: Irp, stage: nat): nat {
    match pc
    case Write(v, _, wp) => Ind(w == v && wp.WriteSend?)
    case Sent(ch, sp) => Ahead(ch, w, Stage(sp) >= stage)
    case _ => 0
  }

  /** Threads with an IRP on the file object that they have not completed. A dispatch routine that has
      listed its read has no part in the IRP any more. */
  function UseWeight(pc: Pc, f: File): nat {
    match pc
    case Read(_, g, _) => Ind(f == g)
    case Service(FromCancelledRead(_, g), _) => Ind(f == g)
    case Write(_, g, _) => Ind(f == g)
    case Request(ForIoctl(g), _) => Ind(f == g)
    case _ => CleanupWeight(pc, f)
  }

  /** Threads in the cleanup of the file object. */
  function CleanupWeight(pc: Pc, f: File): nat {
    match pc
    case Request(ForCleanup(g), _) => Ind(f == g)
    case CleanupMark(g) => Ind(f == g)
    case Purge(FromCleanup(g), _) => Ind(f == g)
    case Flush(AtCleanup(g), _) => Ind(f == g)
    case _ => 0
  }

  /** Threads inside an OPEN_DEVICE request that has set FsContext. */
  function OpenedWeight(pc: Pc, f: File): nat {
    match pc
    case Request(ForOpen(g), _) => Ind(f == g)
    case OpenDevice(g, op) => Ind(f == g && op.Undo?)
    case _ => 0
  }

  function OpeningWeight(pc: Pc, f: File): nat {
    match pc
    case Request(ForOpen(g), _) => Ind(f == g)
    case OpenDevice(g, _) => Ind(f == g)
    case _ => 0
  }

  /** Threads that were dispatched on a file object. */
  predicate IsDispatched(pc: Pc) {
    pc.Read? || pc.Write? || (pc.Service? && !pc.k.FromReceive?) || (pc.Request? && pc.rk.ForIoctl?)
  }

  predicate HoldsLock(pc: Pc, h: Holder) {
    match pc
    case Read(x, _, r) => h == ByRead(x) && (r.Test? || r.List?)
    case Receive(n, q) => h == ByReceive(n) && q.QueueAgain?
    case _ => false
  }

  predicate IsIndication(pc: Pc) {
    pc.Receive? || (pc.Service? && pc.k.FromReceive?)
  }

  /** The thread will look at the read list and the packet queue again before it leaves ServiceReads. */
  predicate IsCommitted(pc: Pc) {
    || (pc.Service? && !pc.v.ServeExit?)
    || (pc.Receive? && (pc.q.TrimFree? || pc.q.TrimDeref?))
  }

  function ReadW(k: ReadKey, pc: Pc): nat {
    match k
    case InFlight => ReadWeight(pc)
    case At(x) => PendedWeight(pc, x) + DispatchWeight(pc, x)
    case Listed(x) => PendedWeight(pc, x)
    case Claimed(x) => Ind(pc.CancelRead? && pc.x == x && (pc.cr.Fetch? || pc.cr.NullContext? || pc.cr.Unlink?))
  }

  function SendW(k: SendKey, pc: Pc): nat {
    match k
    case Counted => SendWeight(pc)
    case WriteAt(w) => SentWeight(pc, w, 4) + DispatchWriteWeight(pc, w)
    case WentAt(w) => SentWeight(pc, w, 4)
    case LinkedAt(w) => SentWeight(pc, w, 2)
    case StoredAt(w) => SentWeight(pc, w, 1)
    case SendNblAt(w) => SentWeight(pc, w, 3)
  }

  function MeasureW(m: Measure, pc: Pc): nat {
    match m
    case UsesOf(f) => UseWeight(pc, f)
    case CleanupOf(f) => CleanupWeight(pc, f)
    case OpenedBy(f) => OpenedWeight(pc, f)
    case OpeningOf(f) => OpeningWeight(pc, f)
    case Dispatched => Ind(IsDispatched(pc))
    case Indicating => Ind(IsIndication(pc))
    case Committed => Ind(IsCommitted(pc))
    case WritesOut => WriteWeight(pc)
    case RequestsOut => Ind(pc.Request? && !pc.rp.RequestEnter?)
  }

  function CleanWeight(pc: Pc, f: File): nat {
    Ind((pc.Request? && pc.rk == ForCleanup(f)) || pc == CleanupMark(f))
  }

  function W(k: Key, pc: Pc): nat {
    match k
    case References => Refs(pc)
    case OfReads(rk) => ReadW(rk, pc)
    case OfPacket(n) => PacketWeight(pc, n)
    case OfSends(sk) => SendW(sk, pc)
    case Cleaning(f) => CleanWeight(pc, f)
    case LockHeld(h) => Ind(HoldsLock(pc, h))
    case Weight(m) => MeasureW(m, pc)
  }

  // ---- Sums over the threads ---------------------------------------------

  function Total(k: Key, ts: seq<Pc>): nat {
    if ts == [] then 0 else W(k, ts[0]) + Total(k, ts[1..])
  }

  lemma {:induction false} TotalAppend(k: Key, ts: seq<Pc>, pc: Pc)
    ensures Total(k, ts + [pc]) == Total(k, ts) + W(k, pc)
  {
    hide W;
    if ts == [] {
      assert [pc][1..] == [];
      assert Total(k, [pc][1..]) == 0;
      assert ts + [pc] == [pc];
    } else {
      assert (ts + [pc])[1..] == ts[1..] + [pc];
      TotalAppend(k, ts[1..], pc);
    }
  }

  lemma {:induction false} TotalUpdate(k: Key, ts: seq<Pc>, t: nat, pc: Pc)
    requires t < |ts|
    ensures Total(k, ts[t := pc]) == Total(k, ts) - W(k, ts[t]) + W(k, pc)
  {
    hide W;
    if t == 0 {
      assert ts[t := pc][1..] == ts[1..];
    } else {
      assert ts[t := pc][1..] == ts[1..][t - 1 := pc];
      TotalUpdate(k, ts[1..], t - 1, pc);
    }
  }

  /** Where one weight never exceeds another, the totals differ at least by what one thread makes them differ. */
  lemma {:induction false} TotalDominated(k: Key, big: Key, ts: seq<Pc>, t: nat)
    requires t < |ts|
    requires forall pc {:trigger W(k, pc)} :: W(k, pc) <= W(big, pc)
    ensures Total(k, ts) + W(big, ts[t]) - W(k, ts[t]) <= Total(big, ts)
  {
    hide W;
    TotalBelow(k, big, ts[1..]);
    assert W(k, ts[0]) <= W(big, ts[0]);
    if t > 0 {
      TotalDominated(k, big, ts[1..], t - 1);
    }
  }

  lemma {:induction false} TotalBelow(k: Key, big: Key, ts: seq<Pc>)
    requires forall pc {:trigger W(k, pc)} :: W(k, pc) <= W(big, pc)
    ensures Total(k, ts) <= Total(big, ts)
  {
    hide W;
    if ts != [] {
      assert W(k, ts[0]) <= W(big, ts[0]);
      TotalBelow(k, big, ts[1..]);
    }
  }

  lemma {:induction false} TotalAtLeast(k: Key, ts: seq<Pc>, t: nat)
    requires t < |ts|
    ensures W(k, ts[t]) <= Total(k, ts)
  {
    hide W;
    if t > 0 {
      TotalAtLeast(k, ts[1..], t - 1);
    }
  }

  lemma {:induction false} TotalSum(k: Key, a: Key, b: Key, ts: seq<Pc>)
    requires forall pc {:trigger W(k, pc)} :: W(k, pc) == W(a, pc) + W(b, pc)
    ensures Total(k, ts) == Total(a, ts) + Total(b, ts)
  {
    hide W;
    if ts != [] {
      assert W(k, ts[0]) == W(a, ts[0]) + W(b, ts[0]);
      TotalSum(k, a, b, ts[1..]);
    }
  }

  /** Two different threads count twice. */
  lemma {:induction false} TotalOfTwo(k: Key, ts: seq<Pc>, t: nat, u: nat)
    requires t < u < |ts|
    ensures W(k, ts[t]) + W(k, ts[u]) <= Total(k, ts)
  {
    hide W;
    if t > 0 {
      TotalOfTwo(k, ts[1..], t - 1, u - 1);
    } else {
      TotalAtLeast(k, ts[1..], u - 1);
    }
  }

  /** A positive total has a thread behind it. */
  lemma {:induction false} TotalWitness(k: Key, ts: seq<Pc>) returns (t: nat)
    requires Total(k, ts) > 0
    ensures t < |ts| && W(k, ts[t]) > 0
  {
    hide W;
    if W(k, ts[0]) > 0 {
      t := 0;
    } else {
      var u := TotalWitness(k, ts[1..]);
      t := u + 1;
    }
  }

  // ---- Conservation ------------------------------------------------------

  predicate ReadPrepared(c: Ctx, x: Irp, r: ReadPc) {
    && (r.Enter? ==> c.lock == None && x !in c.rd.routine)
    && (r.Test? ==> c.lock == Some(ByRead(x)))
    && (r.List? ==> c.lock == Some(ByRead(x)) && x !in c.rd.stored)
  }

  predicate ReceivePrepared(c: Ctx, n: Nbl, q: ReceivePc) {
    (q.QueueLock? ==> c.lock == None) && (q.QueueAgain? ==> c.lock == Some(ByReceive(n)))
  }

  predicate WritePrepared(tx: Sends, w: Irp, wp: WritePc) {
    && (wp.WriteLock? ==> w !in tx.stored && w !in tx.went)
    && (wp.WriteSend? ==> w !in tx.inNdis)
  }

  predicate SentPrepared(tx: Sends, ch: seq<Irp>, sp: SentPc) {
    && ch != []
    && (sp.ClearCancel? ==> ch[0] in tx.stored)
    && (sp.UnlinkWrite? ==> ch[0] in tx.pended)
  }

  predicate ControlPrepared(b: Binding, ctl: ControlPc) {
    match ctl
    case Bind(bp) => bp.BindRef? ==> !b.bound
    case Unbind(up) => up.ShutLock? && up.failed ==> b.bind != BindActive
    case Release(sp, failed) => (sp.ShutRelease? ==> b.bound) && (sp.BindFailRelease? ==> failed)
    case _ => true
  }

  /** What an action relies on: the entries it unlinks are linked, and the
      words it sets or clears are clear or set. Invariant.Ready proves this. */
  predicate Prepared(c: Ctx, pc: Pc) {
    match pc
    case Read(x, _, r) => ReadPrepared(c, x, r)
    case CancelRead(x, cr) => cr.Unlink? ==> x in c.rd.pended
    case Receive(n, q) => ReceivePrepared(c, n, q)
    case Write(w, _, wp) => WritePrepared(c.tx, w, wp)
    case Sent(ch, sp) => SentPrepared(c.tx, ch, sp)
    case OpenDevice(f, op) => op.Undo? ==> f in c.fs.here
    case CleanupMark(f) => f in c.fs.begun && f !in c.fs.cleaned
    case Control(ctl) => ControlPrepared(c.b, ctl)
    case _ => true
  }

  /** One action keeps the balance of one law. */
  predicate Balanced(k: Key, c: Ctx, pc: Pc, c': Ctx, pc': Pc) {
    Part(k, c') + W(k, pc') == Part(k, c) + W(k, pc)
  }

  /** The balances that concern reads, packets and references, for one action of one family. */
  predicate ReadBalance(k: ReadKey, c: Ctx, pc: Pc, c': Ctx, pc': Pc) {
    ReadPart(k, c'.rd, c'.lock) + ReadW(k, pc') == ReadPart(k, c.rd, c.lock) + ReadW(k, pc)
  }

  predicate SendBalance(k: SendKey, c: Ctx, pc: Pc, c': Ctx, pc': Pc) {
    SendPart(k, c'.tx) + SendW(k, pc') == SendPart(k, c.tx) + SendW(k, pc)
  }

  /** Threads that never touch write IRPs or OID requests. */
  predicate NoSends(pc: Pc) {
    !pc.Write? && !pc.Sent? && (pc.Request? ==> pc.rp.RequestEnter?)
  }

  /** Threads that hold no read and no lock. */
  predicate NoReads(pc: Pc) {
    && !pc.Read? && !pc.CancelRead?
    && (pc.Service? ==> pc.v.ServeRef? && !pc.k.FromCancelledRead?)
    && (pc.Purge? ==> pc.p.PurgeRef?)
  }

  predicate NoPacket(pc: Pc) {
    && (pc.Service? ==>
          pc.v.ServeRef? || pc.v.ServeTop? || pc.v.ServeDropRead? || pc.v.ServeDecrement? || pc.v.ServeExit?)
    && (pc.Flush? ==> !pc.fl.FlushFree?)
    && (pc.Receive? ==> pc.q.DropDeref? || pc.q.TrimDeref?)
  }

  lemma NoSendsWeight(pc: Pc, k: SendKey)
    requires NoSends(pc)
    ensures SendW(k, pc) == 0
  {
  }

  lemma NoReadsWeight(pc: Pc, k: ReadKey)
    requires NoReads(pc)
    ensures ReadW(k, pc) == 0
  {
  }

  lemma ReadActReads(c: Ctx, x: Irp, f: File, r: ReadPc, k: ReadKey)
    requires ReadPrepared(c, x, r)
    ensures var (c', pc') := ActRead(c, x, f, r); ReadBalance(k, c, Read(x, f, r), c', pc')
  {
    hide ReadBalance, ActRead, ReadPrepared;
    match r
    case Fail => ReadFailReads(c, x, f, r, k);
    case Late => ReadFailReads(c, x, f, r, k);
    case List => ReadListReads(c, x, f, k);
    case _ => ReadTestReads(c, x, f, r, k);
  }

  lemma ReadFailReads(c: Ctx, x: Irp, f: File, r: ReadPc, k: ReadKey)
    requires r.Fail? || r.Late?
    ensures var (c', pc') := ActRead(c, x, f, r); ReadBalance(k, c, Read(x, f, r), c', pc')
  {
    CountSingle(c.rd.byDispatch, x);
  }

  lemma ReadListReads(c: Ctx, x: Irp, f: File, k: ReadKey)
    requires ReadPrepared(c, x, List)
    ensures var (c', pc') := ActRead(c, x, f, List); ReadBalance(k, c, Read(x, f, List), c', pc')
  {
    CountSingle(c.rd.pended, x);
  }

  lemma ReadTestReads(c: Ctx, x: Irp, f: File, r: ReadPc, k: ReadKey)
    requires ReadPrepared(c, x, r) && (r.Enter? || r.Test?)
    ensures var (c', pc') := ActRead(c, x, f, r); ReadBalance(k, c, Read(x, f, r), c', pc')
  {
  }

  lemma ReadActRest(c: Ctx, x: Irp, f: File, r: ReadPc)
    ensures var (c', pc') := ActRead(c, x, f, r);
            && c'.b == c.b && c'.rx == c.rx && c'.tx == c.tx && c'.fs == c.fs && NoSends(pc') && NoPacket(pc')
            && Balanced(References, c, Read(x, f, r), c', pc')
  {
  }

  lemma TakeReads(c: Ctx, k: ServiceCaller, rk: ReadKey)
    ensures var (c', pc') := ServiceTest(c, k); ReadBalance(rk, c, Service(k, ServeTop), c', pc')
  {
    if c.rx.queue != [] && HasClaimable(c.rd) {
      var x := c.rd.pended[FirstIn(c.rd.pended, c.rd.routine)];
      CountRemove(c.rd.pended, x);
    }
  }

  lemma TakeRest(c: Ctx, k: ServiceCaller, n: Nbl)
    ensures var (c', pc') := ServiceTest(c, k);
            && c'.b == c.b && c'.tx == c.tx && c'.fs == c.fs && c'.lock == c.lock && pc'.Service? && pc'.k == k
            && c'.refCount == c.refCount && c'.frees == c.frees && c'.leaked == c.leaked
            && Balanced(References, c, Service(k, ServeTop), c', pc')
            && Balanced(OfPacket(n), c, Service(k, ServeTop), c', pc')
  {
    if c.rx.queue != [] && HasClaimable(c.rd) {
      var x := c.rd.pended[FirstIn(c.rd.pended, c.rd.routine)];
      CountRemove(c.rd.pended, x);
      CountTail(c.rx.queue);
    }
  }

  lemma ServiceActReads(c: Ctx, k: ServiceCaller, v: ServicePc, rk: ReadKey)
    ensures var (c', pc') := ActService(c, k, v); ReadBalance(rk, c, Service(k, v), c', pc')
  {
    hide ReadBalance, ServiceTest;
    if v.ServeTop? {
      TakeReads(c, k, rk);
    } else if v.ServeDecrement? {
      ServiceDecrement(c, k, rk);
    } else {
      ServiceOther(c, k, v, rk);
    }
  }

  lemma ServiceDecrement(c: Ctx, k: ServiceCaller, rk: ReadKey)
    ensures var (c', pc') := ActService(c, k, ServeDecrement);
            ReadBalance(rk, c, Service(k, ServeDecrement), c', pc')
  {
    hide ServiceTest;
    TakeReads(c.(rd := c.rd.(count := c.rd.count - 1)), k, rk);
  }

  lemma ServiceOther(c: Ctx, k: ServiceCaller, v: ServicePc, rk: ReadKey)
    requires !v.ServeTop? && !v.ServeDecrement?
    ensures var (c', pc') := ActService(c, k, v); ReadBalance(rk, c, Service(k, v), c', pc')
  {
    if v.ServeComplete? {
      CountSingle(c.rd.served, v.irp);
    }
  }

  lemma ServiceActRefs(c: Ctx, k: ServiceCaller, v: ServicePc)
    ensures var (c', pc') := ActService(c, k, v); Balanced(References, c, Service(k, v), c', pc')
  {
    hide ServiceTest;
    match v
    case ServeTop => TakeRest(c, k, 0);
    case ServeDecrement => TakeRest(c.(rd := c.rd.(count := c.rd.count - 1)), k, 0);
    case _ =>
  }

  lemma ServiceActPacket(c: Ctx, k: ServiceCaller, v: ServicePc, n: Nbl)
    ensures var (c', pc') := ActService(c, k, v); Balanced(OfPacket(n), c, Service(k, v), c', pc')
  {
    hide ServiceTest;
    match v
    case ServeTop => TakeRest(c, k, n);
    case ServeDecrement => TakeRest(c.(rd := c.rd.(count := c.rd.count - 1)), k, n);
    case ServeFree(m) => CountSingle(c.rx.returned, m);
    case _ =>
  }

  lemma ServiceActFrame(c: Ctx, k: ServiceCaller, v: ServicePc)
    ensures var (c', pc') := ActService(c, k, v);
            c'.b == c.b && c'.tx == c.tx && c'.fs == c.fs && c'.lock == c.lock
                && (pc'.Done? || pc'.Service? || pc'.Read?)
  {
  }

  lemma CancelReadActReads(c: Ctx, x: Irp, cr: CancelReadPc, k: ReadKey)
    requires cr.Unlink? ==> x in c.rd.pended
    ensures var (c', pc') := ActCancelRead(c, x, cr); ReadBalance(k, c, CancelRead(x, cr), c', pc')
  {
    hide ReadBalance, ActCancelRead;
    if cr.Unlink? {
      CancelUnlinkReads(c, x, k);
    } else {
      CancelOtherReads(c, x, cr, k);
    }
  }

  lemma CancelUnlinkReads(c: Ctx, x: Irp, k: ReadKey)
    requires x in c.rd.pended
    ensures var (c', pc') := ActCancelRead(c, x, Unlink); ReadBalance(k, c, CancelRead(x, Unlink), c', pc')
  {
    CountRemove(c.rd.pended, x);
  }

  lemma CancelOtherReads(c: Ctx, x: Irp, cr: CancelReadPc, k: ReadKey)
    requires !cr.Unlink?
    ensures var (c', pc') := ActCancelRead(c, x, cr); ReadBalance(k, c, CancelRead(x, cr), c', pc')
  {
    CountSingle(c.rd.byCancel, x);
  }

  lemma CancelReadActRest(c: Ctx, x: Irp, cr: CancelReadPc)
    requires cr.Unlink? ==> x in c.rd.pended
    ensures var (c', pc') := ActCancelRead(c, x, cr);
            && c'.b == c.b && c'.rx == c.rx && c'.tx == c.tx && c'.fs == c.fs && (pc'.Done? || pc'.CancelRead?)
            && Balanced(References, c, CancelRead(x, cr), c', pc')
  {
    if cr.Unlink? {
      CountRemove(c.rd.pended, x);
    }
  }

  lemma PurgeTestReads(c: Ctx, k: PurgeCaller, rk: ReadKey)
    ensures var (c', pc') := PurgeTest(c, k); ReadBalance(rk, c, Purge(k, PurgeTop), c', pc')
  {
    if c.rd.pended != [] {
      CountRemove(c.rd.pended, c.rd.pended[0]);
    }
  }

  lemma PurgeActReads(c: Ctx, k: PurgeCaller, p: PurgePc, rk: ReadKey)
    ensures var (c', pc') := ActPurge(c, k, p); ReadBalance(rk, c, Purge(k, p), c', pc')
  {
    hide ReadBalance, PurgeTest;
    if p.PurgeTop? {
      PurgeTestReads(c, k, rk);
    } else if p.PurgeDecrement? {
      PurgeDecrementReads(c, k, rk);
    } else {
      PurgeOther(c, k, p, rk);
    }
  }

  lemma PurgeDecrementReads(c: Ctx, k: PurgeCaller, rk: ReadKey)
    ensures var (c', pc') := ActPurge(c, k, PurgeDecrement); ReadBalance(rk, c, Purge(k, PurgeDecrement), c', pc')
  {
    hide PurgeTest;
    PurgeTestReads(c.(rd := c.rd.(count := c.rd.count - 1)), k, rk);
  }

  lemma PurgeOther(c: Ctx, k: PurgeCaller, p: PurgePc, rk: ReadKey)
    requires !p.PurgeTop? && !p.PurgeDecrement?
    ensures var (c', pc') := ActPurge(c, k, p); ReadBalance(rk, c, Purge(k, p), c', pc')
  {
    if p.PurgeComplete? {
      CountSingle(c.rd.byPurge, p.irp);
    }
  }

  lemma PurgeActRefs(c: Ctx, k: PurgeCaller, p: PurgePc)
    ensures var (c', pc') := ActPurge(c, k, p); Balanced(References, c, Purge(k, p), c', pc')
  {
    if c.rd.pended != [] {
      CountRemove(c.rd.pended, c.rd.pended[0]);
    }
  }

  lemma PurgeActRest(c: Ctx, k: PurgeCaller, p: PurgePc)
    ensures var (c', pc') := ActPurge(c, k, p);
            && c'.b == c.b && c'.rx == c.rx && c'.tx == c.tx && c'.fs == c.fs && c'.lock == c.lock
            && (pc'.Purge? || pc' == Control(Drain(ShutReads)) || (pc'.Flush? && pc'.fl.FlushRef? && pc'.fk.AtCleanup?))
  {
  }

  lemma FlushActFrame(c: Ctx, k: FlushCaller, fl: FlushPc)
    ensures var (c', pc') := ActFlush(c, k, fl);
            && c'.b == c.b && c'.rd == c.rd && c'.tx == c.tx && c'.fs == c.fs && c'.lock == c.lock
            && (pc'.Flush? || pc'.Done? || pc'.Control?)
            && Balanced(References, c, Flush(k, fl), c', pc')
  {
  }

  lemma FlushActPacket(c: Ctx, k: FlushCaller, fl: FlushPc, n: Nbl)
    ensures var (c', pc') := ActFlush(c, k, fl); Balanced(OfPacket(n), c, Flush(k, fl), c', pc')
  {
    if fl.FlushFree? {
      CountSingle(c.rx.returned, fl.nbl);
    } else if c.rx.queue != [] {
      CountTail(c.rx.queue);
    }
  }

  lemma ReceiveActFrame(c: Ctx, m: Nbl, q: ReceivePc)
    ensures var (c', pc') := ActReceive(c, m, q);
            && c'.b == c.b && c'.rd == c.rd && c'.tx == c.tx && c'.fs == c.fs
            && (pc'.Receive? || pc'.Done? || pc' == Service(FromReceive, ServeRef))
            && Balanced(References, c, Receive(m, q), c', pc')
  {
  }

  lemma ReceiveActLock(c: Ctx, m: Nbl, q: ReceivePc, h: Holder)
    requires ReceivePrepared(c, m, q)
    ensures var (c', pc') := ActReceive(c, m, q);
            && Balanced(LockHeld(h), c, Receive(m, q), c', pc')
            && (h.ByRead? ==> (c'.lock == Some(h) <==> c.lock == Some(h)))
  {
  }

  lemma ReceiveActReads(c: Ctx, m: Nbl, q: ReceivePc, k: ReadKey)
    requires ReceivePrepared(c, m, q)
    ensures var (c', pc') := ActReceive(c, m, q); ReadBalance(k, c, Receive(m, q), c', pc')
  {
    hide ActReceive;
    var (c', pc') := ActReceive(c, m, q);
    ReceiveActFrame(c, m, q);
    NoReadsWeight(Receive(m, q), k);
    NoReadsWeight(pc', k);
    if k.Claimed? {
      ReceiveActLock(c, m, q, ByRead(k.x));
    }
  }

  lemma ReadActLock(c: Ctx, x: Irp, f: File, r: ReadPc, h: Holder)
    requires ReadPrepared(c, x, r)
    ensures var (c', pc') := ActRead(c, x, f, r); Balanced(LockHeld(h), c, Read(x, f, r), c', pc')
  {
  }

  lemma ReceiveActPacket(c: Ctx, m: Nbl, q: ReceivePc, n: Nbl)
    ensures var (c', pc') := ActReceive(c, m, q); Balanced(OfPacket(n), c, Receive(m, q), c', pc')
  {
    if q.QueueAgain? {
      CountSingle(c.rx.queue, m);
      CountTail(c.rx.queue + [m]);
    } else {
      CountSingle(c.rx.returned, m);
    }
  }

  lemma WriteSectionSends(c: Ctx, w: Irp, f: File, o: bool, k: SendKey)
    requires w !in c.tx.stored && w !in c.tx.went
    ensures var (c', pc') := WriteSection(c, w, f, o); SendBalance(k, c, Write(w, f, WriteLock), c', pc')
  {
    CountSingle(c.tx.pended, w);
  }

  lemma WriteActSends(c: Ctx, w: Irp, f: File, wp: WritePc, o: bool, k: SendKey)
    requires WritePrepared(c.tx, w, wp)
    ensures var (c', pc') := ActWrite(c, w, f, wp, o); SendBalance(k, c, Write(w, f, wp), c', pc')
  {
    if wp.WriteLock? {
      WriteSectionSends(c, w, f, o, k);
    } else {
      CountSingle(c.tx.byDispatch, w);
    }
  }

  lemma WriteActFrame(c: Ctx, w: Irp, f: File, wp: WritePc, o: bool)
    requires WritePrepared(c.tx, w, wp)
    ensures var (c', pc') := ActWrite(c, w, f, wp, o);
            && c'.b == c.b && c'.rd == c.rd && c'.rx == c.rx && c'.fs == c.fs && c'.lock == c.lock
            && (pc'.Write? || pc'.Done?)
            && Balanced(References, c, Write(w, f, wp), c', pc')
  {
  }

  lemma SentActSends(c: Ctx, ch: seq<Irp>, sp: SentPc, k: SendKey)
    requires SentPrepared(c.tx, ch, sp)
    ensures var (c', pc') := ActSent(c, ch, sp); SendBalance(k, c, Sent(ch, sp), c', pc')
  {
    hide SendBalance, ActSent;
    match sp
    case ClearCancel => SentClears(c, ch, k);
    case UnlinkWrite => SentUnlinks(c, ch, k);
    case FreeSendNbl => SentFrees(c, ch, k);
    case SentComplete => SentCompletes(c, ch, k);
    case SentDecrement => SentCounts(c, ch, k);
    case SentDrop => SentDrops(c, ch, k);
  }

  lemma SentClears(c: Ctx, ch: seq<Irp>, k: SendKey)
    requires ch != [] && ch[0] in c.tx.stored
    ensures var (c', pc') := ActSent(c, ch, ClearCancel); SendBalance(k, c, Sent(ch, ClearCancel), c', pc')
  {
    CountTail(ch);
  }

  lemma SentUnlinks(c: Ctx, ch: seq<Irp>, k: SendKey)
    requires ch != [] && ch[0] in c.tx.pended
    ensures var (c', pc') := ActSent(c, ch, UnlinkWrite); SendBalance(k, c, Sent(ch, UnlinkWrite), c', pc')
  {
    CountTail(ch);
    CountRemove(c.tx.pended, ch[0]);
  }

  lemma SentFrees(c: Ctx, ch: seq<Irp>, k: SendKey)
    requires ch != []
    ensures var (c', pc') := ActSent(c, ch, FreeSendNbl); SendBalance(k, c, Sent(ch, FreeSendNbl), c', pc')
  {
    CountTail(ch);
    CountSingle(c.tx.nblFreed, ch[0]);
  }

  lemma SentCompletes(c: Ctx, ch: seq<Irp>, k: SendKey)
    requires ch != []
    ensures var (c', pc') := ActSent(c, ch, SentComplete); SendBalance(k, c, Sent(ch, SentComplete), c', pc')
  {
    CountTail(ch);
    CountSingle(c.tx.bySendComplete, ch[0]);
  }

  lemma SentCounts(c: Ctx, ch: seq<Irp>, k: SendKey)
    requires ch != []
    ensures var (c', pc') := ActSent(c, ch, SentDecrement); SendBalance(k, c, Sent(ch, SentDecrement), c', pc')
  {
  }

  lemma SentDrops(c: Ctx, ch: seq<Irp>, k: SendKey)
    requires ch != []
    ensures var (c', pc') := ActSent(c, ch, SentDrop); SendBalance(k, c, Sent(ch, SentDrop), c', pc')
  {
    CountTail(ch);
  }

  lemma SentActRest(c: Ctx, ch: seq<Irp>, sp: SentPc)
    requires SentPrepared(c.tx, ch, sp)
    ensures var (c', pc') := ActSent(c, ch, sp);
            && c'.b == c.b && c'.rd == c.rd && c'.rx == c.rx && c'.fs == c.fs && c'.lock == c.lock
            && (pc'.Sent? || pc'.Done?)
            && Balanced(References, c, Sent(ch, sp), c', pc')
  {
    if sp.UnlinkWrite? {
      CountRemove(c.tx.pended, ch[0]);
    }
  }

  predicate IsRest(pc: Pc) {
    pc.Done? || pc.CancelWrite? || pc.Request? || pc.OpenDevice? || pc.CleanupMark? || pc.CloseDrop?
  }

  lemma RequestActSends(c: Ctx, q: RequestCaller, rp: RequestPc, o: bool, k: SendKey)
    ensures var (c', pc') := ActRequest(c, q, rp, o); SendBalance(k, c, Request(q, rp), c', pc')
  {
  }

  lemma RestActSends(c: Ctx, pc: Pc, o: bool, k: SendKey)
    requires IsRest(pc)
    ensures var (c', pc') := Act(c, pc, o); SendBalance(k, c, pc, c', pc')
  {
    if pc.Request? {
      RequestActSends(c, pc.rk, pc.rp, o, k);
    } else if pc.CancelWrite? {
      CancelWriteAct(c, pc.w, pc.cw, k);
    }
  }

  lemma CancelWriteAct(c: Ctx, w: Irp, cw: CancelWritePc, k: SendKey)
    ensures var (c', pc') := ActCancelWrite(c, w, cw);
            SendBalance(k, c, CancelWrite(w, cw), c', pc') && Balanced(References, c, CancelWrite(w, cw), c', pc')
  {
  }

  lemma OpenActRefs(c: Ctx, f: File, op: OpenPc, o: bool)
    requires op.Undo? ==> f in c.fs.here
    ensures var (c', pc') := ActOpen(c, f, op, o); Balanced(References, c, OpenDevice(f, op), c', pc')
  {
    if op.Undo? {
      assert |c.fs.here - {f}| == |c.fs.here| - 1;
    } else if op.Associate? && f !in c.fs.here {
      assert |c.fs.here + {f}| == |c.fs.here| + 1;
    }
  }

  lemma RequestActRefs(c: Ctx, k: RequestCaller, rp: RequestPc, o: bool)
    ensures var (c', pc') := ActRequest(c, k, rp, o); Balanced(References, c, Request(k, rp), c', pc')
  {
  }

  lemma RestActRefs(c: Ctx, pc: Pc, o: bool)
    requires IsRest(pc) && Prepared(c, pc)
    ensures var (c', pc') := Act(c, pc, o); Balanced(References, c, pc, c', pc')
  {
    match pc
    case OpenDevice(f, op) => OpenActRefs(c, f, op, o);
    case Request(k, rp) => RequestActRefs(c, k, rp, o);
    case CancelWrite(w, cw) => CancelWriteAct(c, w, cw, Counted);
    case _ =>
  }

  lemma RestActFrame(c: Ctx, pc: Pc, o: bool)
    requires IsRest(pc)
    ensures var (c', pc') := Act(c, pc, o);
            && c'.b == c.b && c'.rd == c.rd && c'.rx == c.rx && c'.lock == c.lock
            && (IsRest(pc') || (pc'.Purge? && pc'.p.PurgeRef?))
  {
  }

  lemma RestActCleaning(c: Ctx, pc: Pc, o: bool, f: File)
    requires IsRest(pc) && Prepared(c, pc)
    ensures var (c', pc') := Act(c, pc, o); Balanced(Cleaning(f), c, pc, c', pc')
  {
  }

  // ---- The control thread

  /** What the control thread never touches. */
  predicate ControlFrame(c: Ctx, c': Ctx) {
    && c'.fs == c.fs && c'.rd == c.rd && c'.rx == c.rx && c'.lock == c.lock && c'.leaked == c.leaked
    && c'.tx == c.tx.(closingEvent := c'.tx.closingEvent, signalled := c'.tx.signalled)
  }

  /** Where the control thread goes from a control action. */
  predicate FromControl(pc: Pc) {
    pc.Control? || pc == Purge(FromShutdown, PurgeRef) || (pc.Flush? && !pc.fk.AtCleanup? && pc.fl.FlushRef?)
  }

  predicate ChangesState(ctl: ControlPc) {
    match ctl
    case Bind(bp) => bp.BindHold? || bp.BindPaused?
    case Unbind(up) => up.UnbindState?
    case Event(ep) => !ep.PauseWait? && !ep.SetPower?
    case _ => false
  }

  /** What one action of the control thread does to the references. */
  predicate ControlRefs(c: Ctx, ctl: ControlPc, c': Ctx, pc': Pc) {
    && ControlFrame(c, c') && FromControl(pc')
    && Ind(c'.b.bound) - c'.refCount + Refs(pc') == Ind(c.b.bound) - c.refCount + Refs(Control(ctl))
  }

  /** ... and where it takes the binding and the thread. */
  predicate ControlMoves(c: Ctx, ctl: ControlPc, c': Ctx, pc': Pc) {
    && (c.b.adapter && !c'.b.adapter ==> ctl == Drain(ShutClose))
    && (c'.b.state == Paused ==> c.b.state == Paused || ctl == Bind(BindPaused) || ctl == Event(PauseDone))
    && (c'.b.state != c.b.state ==> ChangesState(ctl))
    && (c'.b.bind == BindActive ==> c.b.bind == BindActive || ctl == Bind(BindActivate))
    && (pc'.Flush? && pc'.fk.AtPause? ==> ctl.Event? && c.tx.count == 0)
    && (pc' == Control(Event(PauseDone)) ==> ctl == Event(PauseDone))
  }

  predicate ControlBalance(c: Ctx, ctl: ControlPc, c': Ctx, pc': Pc) {
    ControlRefs(c, ctl, c', pc') && ControlMoves(c, ctl, c', pc')
  }

  lemma BindFrame(c: Ctx, bp: BindPc)
    ensures var (c', pc') := ActBind(c, bp); ControlFrame(c, c') && FromControl(pc')
  {
  }

  lemma BindRefs(c: Ctx, bp: BindPc)
    requires ControlPrepared(c.b, Bind(bp))
    ensures var (c', pc') := ActBind(c, bp); ControlRefs(c, Bind(bp), c', pc')
  {
    hide ControlFrame, FromControl;
    BindFrame(c, bp);
  }

  lemma BindMoves(c: Ctx, bp: BindPc)
    ensures var (c', pc') := ActBind(c, bp); ControlMoves(c, Bind(bp), c', pc')
  {
  }

  lemma BindStep(c: Ctx, bp: BindPc)
    requires ControlPrepared(c.b, Bind(bp))
    ensures var (c', pc') := ActBind(c, bp); ControlBalance(c, Bind(bp), c', pc')
  {
    hide ActBind, ControlRefs, ControlMoves;
    BindRefs(c, bp);
    BindMoves(c, bp);
  }

  lemma ReleaseFrame(c: Ctx, sp: ReleasePc, failed: bool)
    ensures var (c', pc') := ActRelease(c, sp, failed); ControlFrame(c, c') && FromControl(pc')
  {
  }

  lemma ReleaseRefs(c: Ctx, sp: ReleasePc, failed: bool)
    requires ControlPrepared(c.b, Release(sp, failed))
    ensures var (c', pc') := ActRelease(c, sp, failed); ControlRefs(c, Release(sp, failed), c', pc')
  {
    hide ControlFrame, FromControl;
    ReleaseFrame(c, sp, failed);
  }

  lemma ReleaseMoves(c: Ctx, sp: ReleasePc, failed: bool)
    ensures var (c', pc') := ActRelease(c, sp, failed); ControlMoves(c, Release(sp, failed), c', pc')
  {
  }

  lemma ResourceStep(c: Ctx, rp: ResourcePc, o: bool)
    ensures var (c', pc') := ActResource(c, rp, o); ControlBalance(c, Resource(rp), c', pc')
  {
  }

  lemma UnbindStep(c: Ctx, up: UnbindPc)
    requires ControlPrepared(c.b, Unbind(up))
    ensures var (c', pc') := ActUnbind(c, up); ControlBalance(c, Unbind(up), c', pc')
  {
  }

  lemma DrainStep(c: Ctx, dp: DrainPc)
    ensures var (c', pc') := ActDrain(c, dp); ControlBalance(c, Drain(dp), c', pc')
  {
  }

  lemma ReleaseStep(c: Ctx, sp: ReleasePc, failed: bool)
    requires ControlPrepared(c.b, Release(sp, failed))
    ensures var (c', pc') := ActRelease(c, sp, failed); ControlBalance(c, Release(sp, failed), c', pc')
  {
    hide ActRelease, ControlRefs, ControlMoves;
    ReleaseRefs(c, sp, failed);
    ReleaseMoves(c, sp, failed);
  }

  lemma EventStep(c: Ctx, ep: EventPc)
    ensures var (c', pc') := ActEvent(c, ep); ControlBalance(c, Event(ep), c', pc')
  {
  }

  lemma ControlStep(c: Ctx, ctl: ControlPc, o: bool)
    requires ControlPrepared(c.b, ctl)
    ensures var (c', pc') := ActControl(c, ctl, o); ControlBalance(c, ctl, c', pc')
  {
    match ctl
    case Bind(bp) => BindStep(c, bp);
    case Resource(rp) => ResourceStep(c, rp, o);
    case Unbind(up) => UnbindStep(c, up);
    case Drain(dp) => DrainStep(c, dp);
    case Release(sp, failed) => ReleaseStep(c, sp, failed);
    case Event(ep) => EventStep(c, ep);
    case _ =>
  }

  lemma ControlSends(c: Ctx, c': Ctx, k: SendKey)
    requires ControlFrame(c, c')
    ensures SendPart(k, c'.tx) == SendPart(k, c.tx)
  {
  }

  // ---- All families

  lemma ConserveRead(c: Ctx, x: Irp, f: File, r: ReadPc, k: Key)
    requires IsLaw(k)
    requires ReadPrepared(c, x, r)
    ensures var (c', pc') := ActRead(c, x, f, r); Balanced(k, c, Read(x, f, r), c', pc')
  {
    var pc := Read(x, f, r);
    var (c', pc') := ActRead(c, x, f, r);
    match k
    case References => ReadActRest(c, x, f, r);
    case OfReads(rk) => ReadActReads(c, x, f, r, rk);
    case OfPacket(n) => ReadActRest(c, x, f, r);
    case OfSends(sk) => ReadActRest(c, x, f, r); NoSendsWeight(pc, sk); NoSendsWeight(pc', sk);
    case Cleaning(g) => ReadActRest(c, x, f, r);
    case LockHeld(h) => ReadActLock(c, x, f, r, h);
    case _ =>
  }

  lemma ConserveService(c: Ctx, q: ServiceCaller, v: ServicePc, k: Key)
    requires IsLaw(k)
    ensures var (c', pc') := ActService(c, q, v); Balanced(k, c, Service(q, v), c', pc')
  {
    var pc := Service(q, v);
    var (c', pc') := ActService(c, q, v);
    match k
    case References => ServiceActRefs(c, q, v);
    case OfReads(rk) => ServiceActReads(c, q, v, rk);
    case OfPacket(n) => ServiceActPacket(c, q, v, n);
    case OfSends(sk) => ServiceActFrame(c, q, v); NoSendsWeight(pc, sk); NoSendsWeight(pc', sk);
    case Cleaning(g) => ServiceActFrame(c, q, v);
    case LockHeld(h) => ServiceActFrame(c, q, v);
    case _ =>
  }

  lemma ConserveCancelRead(c: Ctx, x: Irp, cr: CancelReadPc, k: Key)
    requires IsLaw(k)
    requires cr.Unlink? ==> x in c.rd.pended
    ensures var (c', pc') := ActCancelRead(c, x, cr); Balanced(k, c, CancelRead(x, cr), c', pc')
  {
    var pc := CancelRead(x, cr);
    var (c', pc') := ActCancelRead(c, x, cr);
    match k
    case References => CancelReadActRest(c, x, cr);
    case OfReads(rk) => CancelReadActReads(c, x, cr, rk);
    case OfPacket(n) => CancelReadActRest(c, x, cr);
    case OfSends(sk) => CancelReadActRest(c, x, cr); NoSendsWeight(pc, sk); NoSendsWeight(pc', sk);
    case Cleaning(g) => CancelReadActRest(c, x, cr);
    case LockHeld(h) => CancelReadActRest(c, x, cr);
    case _ =>
  }

  lemma ConservePurge(c: Ctx, q: PurgeCaller, p: PurgePc, k: Key)
    requires IsLaw(k)
    ensures var (c', pc') := ActPurge(c, q, p); Balanced(k, c, Purge(q, p), c', pc')
  {
    var pc := Purge(q, p);
    var (c', pc') := ActPurge(c, q, p);
    match k
    case References => PurgeActRefs(c, q, p);
    case OfReads(rk) => PurgeActReads(c, q, p, rk);
    case OfPacket(n) => PurgeActRest(c, q, p);
    case OfSends(sk) => PurgeActRest(c, q, p); NoSendsWeight(pc, sk); NoSendsWeight(pc', sk);
    case Cleaning(g) => PurgeActRest(c, q, p);
    case LockHeld(h) => PurgeActRest(c, q, p);
    case _ =>
  }

  lemma ConserveFlush(c: Ctx, q: FlushCaller, fl: FlushPc, k: Key)
    requires IsLaw(k)
    ensures var (c', pc') := ActFlush(c, q, fl); Balanced(k, c, Flush(q, fl), c', pc')
  {
    var pc := Flush(q, fl);
    var (c', pc') := ActFlush(c, q, fl);
    match k
    case References => FlushActFrame(c, q, fl);
    case OfReads(rk) => FlushActFrame(c, q, fl); NoReadsWeight(pc, rk); NoReadsWeight(pc', rk);
    case OfPacket(n) => FlushActPacket(c, q, fl, n);
    case OfSends(sk) => FlushActFrame(c, q, fl); NoSendsWeight(pc, sk); NoSendsWeight(pc', sk);
    case Cleaning(g) => FlushActFrame(c, q, fl);
    case LockHeld(h) => FlushActFrame(c, q, fl);
    case _ =>
  }

  lemma ConserveReceive(c: Ctx, m: Nbl, q: ReceivePc, k: Key)
    requires IsLaw(k)
    requires ReceivePrepared(c, m, q)
    ensures var (c', pc') := ActReceive(c, m, q); Balanced(k, c, Receive(m, q), c', pc')
  {
    var pc := Receive(m, q);
    var (c', pc') := ActReceive(c, m, q);
    match k
    case References => ReceiveActFrame(c, m, q);
    case OfReads(rk) => ReceiveActReads(c, m, q, rk);
    case OfPacket(n) => ReceiveActPacket(c, m, q, n);
    case OfSends(sk) => ReceiveActFrame(c, m, q); NoSendsWeight(pc, sk); NoSendsWeight(pc', sk);
    case Cleaning(g) => ReceiveActFrame(c, m, q);
    case LockHeld(h) => ReceiveActLock(c, m, q, h);
    case _ =>
  }

  lemma ConserveWrite(c: Ctx, w: Irp, f: File, wp: WritePc, o: bool, k: Key)
    requires IsLaw(k)
    requires WritePrepared(c.tx, w, wp)
    ensures var (c', pc') := ActWrite(c, w, f, wp, o); Balanced(k, c, Write(w, f, wp), c', pc')
  {
    var pc := Write(w, f, wp);
    var (c', pc') := ActWrite(c, w, f, wp, o);
    match k
    case References => WriteActFrame(c, w, f, wp, o);
    case OfReads(rk) => WriteActFrame(c, w, f, wp, o); NoReadsWeight(pc, rk); NoReadsWeight(pc', rk);
    case OfPacket(n) => WriteActFrame(c, w, f, wp, o);
    case OfSends(sk) => WriteActSends(c, w, f, wp, o, sk);
    case Cleaning(g) => WriteActFrame(c, w, f, wp, o);
    case LockHeld(h) => WriteActFrame(c, w, f, wp, o);
    case _ =>
  }

  lemma ConserveSent(c: Ctx, ch: seq<Irp>, sp: SentPc, k: Key)
    requires IsLaw(k)
    requires SentPrepared(c.tx, ch, sp)
    ensures var (c', pc') := ActSent(c, ch, sp); Balanced(k, c, Sent(ch, sp), c', pc')
  {
    var pc := Sent(ch, sp);
    var (c', pc') := ActSent(c, ch, sp);
    match k
    case References => SentActRest(c, ch, sp);
    case OfReads(rk) => SentActRest(c, ch, sp); NoReadsWeight(pc, rk); NoReadsWeight(pc', rk);
    case OfPacket(n) => SentActRest(c, ch, sp);
    case OfSends(sk) => SentActSends(c, ch, sp, sk);
    case Cleaning(g) => SentActRest(c, ch, sp);
    case LockHeld(h) => SentActRest(c, ch, sp);
    case _ =>
  }

  lemma ConserveControl(c: Ctx, ctl: ControlPc, o: bool, k: Key)
    requires IsLaw(k)
    requires ControlPrepared(c.b, ctl)
    ensures var (c', pc') := ActControl(c, ctl, o); Balanced(k, c, Control(ctl), c', pc')
  {
    var pc := Control(ctl);
    var (c', pc') := ActControl(c, ctl, o);
    match k
    case References => ControlStep(c, ctl, o);
    case OfReads(rk) => ControlStep(c, ctl, o); NoReadsWeight(pc, rk); NoReadsWeight(pc', rk);
    case OfPacket(n) => ControlStep(c, ctl, o);
    case OfSends(sk) => ControlStep(c, ctl, o); ControlSends(c, c', sk); NoSendsWeight(pc, sk); NoSendsWeight(pc', sk);
    case Cleaning(g) => ControlStep(c, ctl, o);
    case LockHeld(h) => ControlStep(c, ctl, o);
    case _ =>
  }

  lemma ConserveRest(c: Ctx, pc: Pc, o: bool, k: Key)
    requires IsLaw(k) && IsRest(pc) && Prepared(c, pc)
    ensures Balanced(k, c, pc, Act(c, pc, o).0, Act(c, pc, o).1)
  {
    var (c', pc') := Act(c, pc, o);
    match k
    case References => RestActRefs(c, pc, o);
    case OfReads(rk) => RestActFrame(c, pc, o); NoReadsWeight(pc, rk); NoReadsWeight(pc', rk);
    case OfPacket(n) => RestActFrame(c, pc, o);
    case OfSends(sk) => RestActSends(c, pc, o, sk);
    case Cleaning(f) => RestActCleaning(c, pc, o, f);
    case LockHeld(h) => RestActFrame(c, pc, o);
    case _ =>
  }

  /** One action of one thread keeps every conservation law. */
  lemma Conserve(c: Ctx, pc: Pc, o: bool, k: Key)
    requires WellFormed(pc) && Prepared(c, pc) && IsLaw(k)
    ensures Balanced(k, c, pc, Act(c, pc, o).0, Act(c, pc, o).1)
  {
    match pc
    case Read(x, f, r) => ConserveRead(c, x, f, r, k);
    case Service(q, v) => ConserveService(c, q, v, k);
    case CancelRead(x, cr) => ConserveCancelRead(c, x, cr, k);
    case Purge(q, p) => ConservePurge(c, q, p, k);
    case Flush(q, fl) => ConserveFlush(c, q, fl, k);
    case Receive(m, q) => ConserveReceive(c, m, q, k);
    case Write(w, f, wp) => ConserveWrite(c, w, f, wp, o, k);
    case Sent(ch, sp) => ConserveSent(c, ch, sp, k);
    case Control(ctl) => ConserveControl(c, ctl, o, k);
    case _ => ConserveRest(c, pc, o, k);
  }
}
